/** What the two front ends are shown, against any peer: the PIN with every message, the state the session is in,
    and the progress of a transfer up to the last 256 KiB. */
module FrontEnd {
  import opened Wrappers
  import opened Messages
  import opened Libraries
  import opened SecureChannel
  import opened Peers
  import opened Ledgers
  import I = Inbound
  import O = Outbound
  import InboundSafety
  import OutboundSafety

  // --- What is shown -------------------------------------------------------------------------------

  function Shown(told: seq<ChannelMessage>): ChannelMessage
    requires |told| > 0
  {
    told[|told| - 1]
  }

  /** Every message that has metadata has this PIN. */
  predicate AllShow(told: seq<ChannelMessage>, pin: Option<string>) {
    |told| > 0 ==>
      (Shown(told).meta.Some? ==> Shown(told).meta.value.pin == pin) && AllShow(told[..|told| - 1], pin)
  }

  lemma {:induction false} AllShowMeaning(told: seq<ChannelMessage>, pin: Option<string>)
    ensures AllShow(told, pin) <==>
            forall i | 0 <= i < |told| && told[i].meta.Some? :: told[i].meta.value.pin == pin
  {
    if |told| > 0 {
      var n := |told| - 1;
      AllShowMeaning(told[..n], pin);
      assert forall i | 0 <= i < n :: told[..n][i] == told[i];
    }
  }

  lemma {:induction false} ShowOne(told: seq<ChannelMessage>, m: ChannelMessage, pin: Option<string>)
    requires AllShow(told, pin) && (m.meta.Some? ==> m.meta.value.pin == pin)
    ensures AllShow(told + [m], pin)
  {
    assert (told + [m])[..|told|] == told;
  }

  predicate Transferring(s: State) {
    s.ReceivingFiles? || s.SendingFiles?
  }

  /** The last message shows the state and the metadata as they are; only the bytes acknowledged since the last
      notification of a transfer are not in it. */
  ghost predicate Current(p: Peer) {
    && |p.told| > 0 && Shown(p.told).state == p.st.state
    && WithAck(Shown(p.told).meta, 0) == WithAck(p.st.meta, 0)
    && Acked(Shown(p.told).meta) == if Transferring(p.st.state) then p.st.lastNotified else Acked(p.st.meta)
  }

  ghost predicate PinKept(p: Peer) {
    p.st.meta.Some? ==> p.st.meta.value.pin == p.st.pin
  }

  /** What a receiver's front end knows. */
  ghost predicate Informed(p: Peer) {
    AllShow(p.told, p.st.pin) && PinKept(p) && (p.told != [] || Transferring(p.st.state) ==> Current(p))
  }

  /** q shows what p shows. */
  ghost predicate Silent(p: Peer, q: Peer) {
    q.told == p.told && q.st.state == p.st.state && q.st.pin == p.st.pin && q.st.meta == p.st.meta
    && q.st.lastNotified == p.st.lastNotified
  }

  lemma SilentInformed(p: Peer, q: Peer)
    requires Informed(p) && Silent(p, q)
    ensures Informed(q)
  {
  }

  /** Nothing has been said yet, and nothing is. */
  lemma MuteInformed(p: Peer, q: Peer)
    requires Informed(p) && p.told == [] && q.told == [] && PinKept(q) && !Transferring(q.st.state)
    ensures Informed(q)
  {
  }

  /** Saying how things stand. */
  lemma ToldInformed(p: Peer, q: Peer, m: ChannelMessage)
    requires AllShow(p.told, p.st.pin) && q.st.pin == p.st.pin && PinKept(q)
    requires q.told == p.told + [m] && m.state == q.st.state && m.meta == q.st.meta
    requires Transferring(q.st.state) ==> q.st.lastNotified == Acked(q.st.meta)
    ensures Informed(q)
  {
    ShowOne(p.told, m, q.st.pin);
    assert Shown(q.told) == m;
  }

  lemma EndInformed(p: Peer, state: State)
    requires AllShow(p.told, p.st.pin) && PinKept(p) && !Transferring(state)
    ensures Informed(End(p, state).p)
  {
    ToldInformed(p, End(p, state).p, ChannelMessage(p.env.id, state, p.st.meta));
  }

  lemma SendSilent(p: Peer, frame: OfflineFrame)
    ensures Silent(p, EncryptAndSend(p, frame).p)
  {
  }

  lemma LetterSilent(p: Peer, frame: ShareFrame)
    ensures Silent(p, SendEncrypted(p, frame).p)
  {
  }

  /** The accounting of a chunk: it is shown when the notification is due, and not otherwise. */
  lemma ProgressInformed(p: Peer, files: map<int, FileInfo>, n: nat)
    requires Informed(p) && Transferring(p.st.state) && p.st.meta.Some?
    ensures Informed(Progress(p, files, n))
  {
    var q := Progress(p, files, n);
    if q.told != p.told {
      ToldInformed(p, q, Told(q));
    }
  }

  /** So the front end is never 256 KiB or more behind. */
  lemma NeverFarBehind(p: Peer)
    requires Current(p) && (InboundSafety.Books(p) || OutboundSafety.Books(p)) && p.st.meta.Some?
    ensures 0 <= Acked(p.st.meta) - Acked(Shown(p.told).meta) < NOTIFY_STEP
  {
  }

  // --- The receiver --------------------------------------------------------------------------------

  lemma {:induction false} CreatingSilent(p: Peer, ids: seq<int>)
    ensures Silent(p, I.CreateAll(p, ids).p)
    decreases |ids|
  {
    if |ids| > 0 && ids[0] in p.st.files && !Broken(p) {
      CreatingSilent(I.Create(Spend(p), ids[0]), ids[1..]);
    }
  }

  lemma AcceptInformed(p: Peer)
    requires Informed(p) && InboundSafety.Inv(p) && p.st.state.WaitingForUserConsent?
    ensures Informed(I.AcceptTransfer(p).p)
  {
    var ids := p.env.tape.order(p.st.files.Keys);
    CreatingSilent(p, ids);
    var q := I.CreateAll(p, ids).p;
    LetterSilent(q, ResponseFrame(Accept));
    var t := SendEncrypted(q, ResponseFrame(Accept)).p;
    SilentInformed(p, q);
    SilentInformed(q, t);
    ToldInformed(t, Enter(t, ReceivingFiles, true), ChannelMessage(t.env.id, ReceivingFiles, t.st.meta));
  }

  lemma DeclineInformed(p: Peer)
    requires Informed(p)
    ensures Informed(I.OnAction(p, RejectTransfer).p)
  {
    var q := Enter(p, Rejected, true);
    ToldInformed(p, q, ChannelMessage(p.env.id, Rejected, p.st.meta));
    LetterSilent(q, ResponseFrame(Reject));
    SilentInformed(q, SendEncrypted(q, ResponseFrame(Reject)).p);
  }

  lemma ActionInformed(p: Peer, action: ChannelAction)
    requires Informed(p) && InboundSafety.Inv(p) && (action.AcceptTransfer? ==> p.st.state.WaitingForUserConsent?)
    ensures Informed(I.OnAction(p, action).p)
  {
    match action {
      case AcceptTransfer => AcceptInformed(p);
      case RejectTransfer => DeclineInformed(p);
      case CancelTransfer => EndInformed(p, Cancelled);
    }
  }

  lemma AskedInformed(p: Peer, list: seq<FileMetadata>, id: int)
    requires AllShow(p.told, p.st.pin) && p.st.state.WaitingForUserConsent?
    ensures Informed(I.AskForFiles(p, list).p) && Informed(I.AskForText(p, id).p)
  {
    var q, r := I.AskForFiles(p, list).p, I.AskForText(p, id).p;
    ToldInformed(p, q, ChannelMessage(p.env.id, p.st.state, q.st.meta));
    ToldInformed(p, r, ChannelMessage(p.env.id, p.st.state, r.st.meta));
  }

  lemma RefusalInformed(p: Peer)
    requires Informed(p) && p.told == []
    ensures Informed(I.RejectTransfer(p, UnsupportedAttachmentType).p)
  {
    LetterSilent(p, ResponseFrame(UnsupportedAttachmentType));
    SilentInformed(p, I.RejectTransfer(p, UnsupportedAttachmentType).p);
  }

  lemma IntroductionInformed(p: Peer, v1: ShareV1)
    requires Informed(p) && p.told == []
    ensures Informed(I.ProcessIntroduction(p, v1).p)
  {
    if v1.introduction.Some? {
      var intro, q := v1.introduction.value, Enter(p, WaitingForUserConsent, false);
      MuteInformed(p, q);
      RefusalInformed(q);
      AskedInformed(q, intro.files, 0);
      if |intro.texts| == 1 {
        AskedInformed(q, intro.files, intro.texts[0].payloadId);
      } else if |intro.wifis| == 1 {
        AskedInformed(q, intro.files, intro.wifis[0]);
      }
    }
  }

  lemma PairedInformed(p: Peer)
    requires Informed(p) && p.told == []
    ensures var s := SendEncrypted(p, PairedKeyResultFrame());
            Informed(s.p) && Informed(Enter(s.p, SentPairedKeyResult, false))
  {
    LetterSilent(p, PairedKeyResultFrame());
    var s := SendEncrypted(p, PairedKeyResultFrame());
    SilentInformed(p, s.p);
    MuteInformed(s.p, Enter(s.p, SentPairedKeyResult, false));
  }

  lemma SetupInformed(p: Peer, v1: ShareV1)
    requires Informed(p) && InboundSafety.Inv(p)
    ensures Informed(I.OnSetupV1(p, v1).p)
  {
    match p.st.state {
      case SentConnectionResponse => PairedInformed(p);
      case SentPairedKeyResult => MuteInformed(p, Enter(p, ReceivedPairedKeyResult, false));
      case ReceivedPairedKeyResult => IntroductionInformed(p, v1);
      case _ =>
    }
  }

  lemma TextInformed(p: Peer, data: Bytes)
    requires Informed(p)
    ensures Informed(I.OnText(p, data).p)
  {
    var meta := match p.st.meta case None => None case Some(m) => Some(m.(text := Some(I.Cut(data))));
    EndInformed(p.(st := p.st.(meta := meta)), Finished);
  }

  lemma CompleteInformed(p: Peer, id: int, data: Bytes)
    requires Informed(p) && InboundSafety.Inv(p)
    ensures Informed(I.OnComplete(p, id, data).p)
  {
    if p.st.text == Some(id) {
      TextInformed(p, data);
    } else {
      match p.env.lib.decShare(data) {
        case Some(ShareFrame(Some(v1))) =>
          if v1.stype.CancelType? {
            EndInformed(p, Cancelled);
          } else {
            SetupInformed(p, v1);
          }
        case _ =>
      }
    }
  }

  lemma BytesInformed(p: Peer, header: PayloadHeader, chunk: PayloadChunk)
    requires Informed(p) && InboundSafety.Inv(p)
    ensures Informed(I.OnBytes(p, header, chunk).p)
  {
    var g := Gather(p, header, chunk);
    SilentInformed(p, g.p);
    InboundSafety.UnmovedInv(p, g.p);
    if g.complete.Some? {
      CompleteInformed(g.p, header.id, g.complete.value);
    }
  }

  lemma WriteInformed(p: Peer, id: int, body: Bytes)
    requires Informed(p) && id in p.st.files
    requires p.st.files[id].handle.Some? ==> Transferring(p.st.state) && p.st.meta.Some?
    ensures Informed(I.WriteChunk(p, id, body).p)
  {
    if p.st.files[id].handle.Some? && !Broken(p) {
      var q := I.Appended(p, id, body);
      SilentInformed(p, q);
      ProgressInformed(q, p.st.files[id := I.Written(p.st.files[id], body)], |body|);
    }
  }

  lemma CloseInformed(p: Peer, id: int)
    requires Informed(p)
    ensures Informed(I.CloseFile(p, id).p)
  {
    var q := p.(st := p.st.(files := p.st.files - {id}));
    SilentInformed(p, q);
    EndInformed(q, Finished);
  }

  lemma OpenMeansReceiving(p: Peer, id: int)
    requires InboundSafety.Inv(p) && id in p.st.files && p.st.files[id].handle.Some?
    ensures Transferring(p.st.state) && p.st.meta.Some?
  {
  }

  lemma FileChunkInformed(p: Peer, header: PayloadHeader, chunk: PayloadChunk)
    requires Informed(p) && InboundSafety.Inv(p)
    ensures Informed(I.OnFileChunk(p, header, chunk).p)
  {
    if header.id in p.st.files {
      CloseInformed(p, header.id);
      if p.st.files[header.id].handle.Some? {
        OpenMeansReceiving(p, header.id);
      }
      WriteInformed(p, header.id, chunk.body);
    }
  }

  lemma FrameInformed(p: Peer, v1: V1Frame)
    requires Informed(p) && InboundSafety.Inv(p)
    ensures Informed(I.OnV1(p, v1).p)
  {
    match v1 {
      case Payload(Some(PayloadTransfer(Some(header), Some(chunk)))) =>
        BytesInformed(p, header, chunk);
        FileChunkInformed(p, header, chunk);
      case KeepAlive(_) =>
        SendSilent(p, OfflineFrame(Some(KeepAlive(true))));
        SilentInformed(p, EncryptAndSend(p, OfflineFrame(Some(KeepAlive(true)))).p);
      case _ =>
    }
  }

  lemma SecureInformed(p: Peer, wire: Bytes)
    requires Informed(p) && InboundSafety.Inv(p)
    ensures Informed(I.OnSecure(p, wire).p)
  {
    var i := ReceiveSecure(p, wire);
    SilentInformed(p, i.p);
    InboundSafety.UnmovedInv(p, i.p);
    if i.r.Ok? {
      FrameInformed(i.p, i.frame);
    }
  }

  /** The handshake says nothing. */
  lemma HelloInformed(p: Peer, wire: Bytes)
    requires Informed(p) && InboundSafety.Inv(p) && Rank(p.st.state) <= 3
    ensures Informed(I.OnFrame(p, wire).p)
  {
    MuteInformed(p, I.OnFrame(p, wire).p);
  }

  lemma ReceiverInformed(p: Peer, e: Event)
    requires Informed(p) && InboundSafety.Inv(p) && InboundSafety.Sensible(p, e)
    ensures Informed(I.Handle(p, e).p)
  {
    match e {
      case Frame(wire) =>
        if Rank(p.st.state) <= 3 {
          HelloInformed(p, wire);
        } else {
          SecureInformed(p, wire);
        }
      case Front(id, action) =>
        if id == p.env.id {
          ActionInformed(p, action);
        }
      case Closed =>
    }
  }

  /** At every point of every run against any peer, the receiver's front end is informed. */
  lemma {:induction false} ReceiverAlwaysInformed(p: Peer, events: seq<Event>)
    requires Informed(p) && InboundSafety.Inv(p) && InboundSafety.Grounded(p.env)
    requires InboundSafety.SensibleRun(p, events)
    ensures Informed(InboundSafety.Run(p, events).p)
    decreases |events|
  {
    if |events| > 0 {
      ReceiverInformed(p, events[0]);
      InboundSafety.HandleSafe(p, events[0]);
      if I.Handle(p, events[0]).r.Ok? {
        ReceiverAlwaysInformed(I.Handle(p, events[0]).p, events[1..]);
      }
    }
  }

  // --- The sender ----------------------------------------------------------------------------------

  /** Every message names the files. */
  predicate AllName(told: seq<ChannelMessage>, names: seq<string>) {
    |told| > 0 ==>
      Shown(told).meta.Some? && Shown(told).meta.value.files == names && AllName(told[..|told| - 1], names)
  }

  lemma {:induction false} AllNameMeaning(told: seq<ChannelMessage>, names: seq<string>)
    ensures AllName(told, names) <==>
            forall i | 0 <= i < |told| :: told[i].meta.Some? && told[i].meta.value.files == names
  {
    if |told| > 0 {
      var n := |told| - 1;
      AllNameMeaning(told[..n], names);
      assert forall i | 0 <= i < n :: told[..n][i] == told[i];
    }
  }

  lemma {:induction false} NameOne(told: seq<ChannelMessage>, m: ChannelMessage, names: seq<string>)
    requires AllName(told, names) && m.meta.Some? && m.meta.value.files == names
    ensures AllName(told + [m], names)
  {
    assert (told + [m])[..|told|] == told;
  }

  ghost predicate FilesNamed(p: Peer) {
    p.st.meta.Some? && p.st.meta.value.files == O.Paths(p.env.payload) && AllName(p.told, O.Paths(p.env.payload))
  }

  /** What a sender's front end knows: from the keys on the PIN and the names, in one message, and from the offer on the
      state too. */
  ghost predicate Briefed(p: Peer) {
    && AllShow(p.told, p.st.pin) && PinKept(p) && FilesNamed(p)
    && (p.keys.Some? ==> p.told != [])
    && if Rank(p.st.state) < 6 then |p.told| <= 1 else Current(p)
  }

  /** The message lists every path of the payload, in order. */
  predicate Names(m: ChannelMessage, payload: seq<SourceFile>) {
    && m.meta.Some? && |m.meta.value.files| == |payload|
    && forall i | 0 <= i < |payload| :: m.meta.value.files[i] == payload[i].path
  }

  lemma BriefedNames(p: Peer)
    requires Briefed(p)
    ensures forall m | m in p.told :: Names(m, p.env.payload)
  {
    AllNameMeaning(p.told, O.Paths(p.env.payload));
  }

  lemma SilentBriefed(p: Peer, q: Peer)
    requires Briefed(p) && Silent(p, q) && q.env == p.env && q.keys == p.keys
    ensures Briefed(q)
  {
  }

  /** Before the offer a change of state is not shown. */
  lemma EarlyBriefed(p: Peer, q: Peer)
    requires Briefed(p) && q.told == p.told && q.st.pin == p.st.pin && q.env == p.env && q.keys == p.keys
    requires Rank(p.st.state) < 6 && Rank(q.st.state) < 6
    requires PinKept(q) && q.st.meta.Some? && q.st.meta.value.files == O.Paths(p.env.payload)
    ensures Briefed(q)
  {
  }

  lemma ToldBriefed(p: Peer, q: Peer, m: ChannelMessage)
    requires AllShow(p.told, q.st.pin) && PinKept(q) && FilesNamed(p) && q.env == p.env
    requires q.st.meta.Some? && q.st.meta.value.files == O.Paths(p.env.payload)
    requires q.told == p.told + [m] && m.state == q.st.state && m.meta == q.st.meta
    requires Transferring(q.st.state) ==> q.st.lastNotified == Acked(q.st.meta)
    requires Rank(q.st.state) >= 6 || p.told == []
    ensures Briefed(q)
  {
    ShowOne(p.told, m, q.st.pin);
    NameOne(p.told, m, O.Paths(p.env.payload));
    assert Shown(q.told) == m;
  }

  lemma EndBriefed(p: Peer, state: State)
    requires Briefed(p) && !Transferring(state) && Rank(state) >= 6
    ensures Briefed(End(p, state).p)
  {
    ToldBriefed(p, End(p, state).p, ChannelMessage(p.env.id, state, p.st.meta));
  }

  lemma SendBriefed(p: Peer, frame: OfflineFrame)
    requires Briefed(p)
    ensures Briefed(EncryptAndSend(p, frame).p)
  {
    SendSilent(p, frame);
    SilentBriefed(p, EncryptAndSend(p, frame).p);
  }

  lemma LetterBriefed(p: Peer, frame: ShareFrame)
    requires Briefed(p)
    ensures Briefed(SendEncrypted(p, frame).p)
  {
    LetterSilent(p, frame);
    SilentBriefed(p, SendEncrypted(p, frame).p);
  }

  lemma ProgressBriefed(p: Peer, files: map<int, FileInfo>, n: nat)
    requires Briefed(p) && Transferring(p.st.state)
    ensures Briefed(Progress(p, files, n))
  {
    var q := Progress(p, files, n);
    if q.told != p.told {
      ToldBriefed(p, q, Told(q));
    }
  }

  /** The key exchange shows the PIN. */
  lemma FinalizedTells(p: Peer, key: PublicKeyMsg)
    requires p.st.meta.Some?
    ensures var s := O.Finalize(p, key);
            if s.r.Err? then s.p == p
            else
              && s.p.env == p.env && s.p.st.state == p.st.state && s.p.st.meta.Some?
              && s.p.st.meta.value.files == p.st.meta.value.files && s.p.st.meta.value.pin == s.p.st.pin
              && s.p.told == p.told + [ChannelMessage(p.env.id, p.st.state, s.p.st.meta)]
  {
  }

  lemma {:induction false} FinalizedBriefed(p: Peer, key: PublicKeyMsg)
    requires Briefed(p) && p.told == [] && p.st.state.SentUkeyClientInit?
    ensures Briefed(O.Finalize(p, key).p)
  {
    var s := O.Finalize(p, key);
    FinalizedTells(p, key);
    if s.r.Ok? {
      ToldBriefed(p, s.p, ChannelMessage(p.env.id, p.st.state, s.p.st.meta));
    }
  }

  lemma SameShown(p: Peer, q: Peer)
    requires Briefed(p) && q == p.(io := q.io, out := q.out)
    ensures Briefed(q)
  {
  }

  lemma ProcessedBriefed(p: Peer, m: Ukey2Message)
    requires Briefed(p) && p.told == [] && p.st.state.SentUkeyClientInit?
    ensures var s := O.ProcessServerInit(p, m); Briefed(s.p) && Rank(s.p.st.state) < 6
  {
    var bad := O.CheckServerInit(m);
    if bad.Some? {
      SameShown(p, O.RefuseServerInit(p, bad.value).p);
    } else {
      var key := m.serverInit.value.publicKey.value;
      FinalizedBriefed(p, key);
      var f := O.Finalize(p, key);
      if f.r.Ok? {
        SameShown(f.p, O.SendFinish(f.p).p);
      }
    }
  }

  lemma ServerInitBriefed(p: Peer, wire: Bytes)
    requires Briefed(p) && p.told == [] && p.st.state.SentUkeyClientInit?
    ensures Briefed(O.OnServerInit(p, wire).p)
  {
    match p.env.lib.decUkey(wire) {
      case None =>
      case Some(m) =>
        var q := OutboundSafety.Noted(p, wire);
        SilentBriefed(p, q);
        ProcessedBriefed(q, m);
        var s := O.ProcessServerInit(q, m);
        EarlyBriefed(s.p, Enter(s.p, SentUkeyClientFinish, false));
    }
  }

  lemma ResponseBriefed(p: Peer, wire: Bytes)
    requires Briefed(p) && p.st.state.SentUkeyClientFinish?
    ensures Briefed(O.OnConnectionResponse(p, wire).p)
  {
    LetterBriefed(p, PairedKeyEncryptionFrame());
  }

  lemma OfferBriefed(p: Peer, v1: ShareV1)
    requires Briefed(p) && p.st.state.SentPairedKeyResult?
    ensures Briefed(O.OnPairedKeyResult(p, v1).p)
  {
    var q := OutboundSafety.Listed(p);
    EarlyBriefed(p, q);
    LetterBriefed(q, IntroductionFrame(O.Announced(p.env, |p.env.payload|).list));
    var s := SendEncrypted(q, IntroductionFrame(O.Announced(p.env, |p.env.payload|).list));
    ToldBriefed(s.p, Enter(s.p, SentIntroduction, true), ChannelMessage(s.p.env.id, SentIntroduction, s.p.st.meta));
  }

  lemma ReadBriefed(p: Peer, id: int, f: FileInfo, body: Bytes)
    requires Briefed(p) && p.st.state.SendingFiles? && f.handle.Some?
    ensures Briefed(O.SendRead(p, id, f, body).p)
  {
    SendBriefed(p, O.ChunkFrame(id, f, body));
    var s := EncryptAndSend(p, O.ChunkFrame(id, f, body));
    var files := s.p.st.files[id := O.Advance(f, |body|)];
    ProgressBriefed(s.p, files, |body|);
    SendBriefed(Progress(s.p, files, |body|), O.EndFrame(id, f));
  }

  lemma TurnBriefed(p: Peer, job: seq<int>)
    requires Briefed(p) && p.st.state.SendingFiles? && |job| > 0 && O.FilesOk(p.st.files)
    ensures Briefed(O.Turn(p, job).p)
  {
    var id := job[0];
    if id in p.st.files {
      if p.st.files[id].transferred == p.st.files[id].total {
        SilentBriefed(p, O.Turn(p, job).p);
      } else if p.st.files[id].handle.Some? && !Broken(p) {
        SilentBriefed(p, Spend(p));
        ReadBriefed(Spend(p), id, p.st.files[id], O.Slice(p.env.tape, id, p.st.files[id]));
      }
    }
  }

  lemma FinishBriefed(p: Peer)
    requires Briefed(p)
    ensures Briefed(O.FinishSending(p).p)
  {
    var q := Enter(p, Finished, true);
    ToldBriefed(p, q, ChannelMessage(p.env.id, Finished, p.st.meta));
    SendBriefed(q, OfflineFrame(Some(Disconnection)));
  }

  lemma BeginBriefed(p: Peer)
    requires Briefed(p) && OutboundSafety.Books(p) && p.st.state.SentIntroduction?
    ensures Briefed(O.BeginSending(p))
  {
    ToldBriefed(p, O.BeginSending(p), ChannelMessage(p.env.id, SendingFiles, p.st.meta));
  }

  lemma {:induction false} LoopBriefed(p: Peer, job: seq<int>)
    requires Briefed(p) && OutboundSafety.LoopInv(p)
    ensures Briefed(O.SendLoop(p, job).p)
    decreases |job|, O.BytesLeft(p.st.files, job)
  {
    if |job| == 0 {
      FinishBriefed(p);
    } else {
      TurnBriefed(p, job);
      OutboundSafety.TurnLoop(p, job);
      O.TurnKeepsFiles(p, job);
      var t := O.Turn(p, job);
      if t.r.Ok? {
        LoopBriefed(t.p, t.job);
      }
    }
  }

  lemma ConsentBriefed(p: Peer, v1: ShareV1)
    requires Briefed(p) && OutboundSafety.Inv(p) && p.st.state.SentIntroduction?
    ensures Briefed(O.ProcessConsent(p, v1).p)
  {
    if v1.stype != ResponseType || v1.response.None? {
    } else if v1.response.value == Accept {
      BeginBriefed(p);
      OutboundSafety.BeginLoop(p);
      var q := O.BeginSending(p);
      LoopBriefed(q, p.env.tape.order(q.st.files.Keys));
    } else {
      EndBriefed(p, Disconnected);
    }
  }

  lemma PairedBriefed(p: Peer)
    requires Briefed(p) && p.st.state.SentPairedKeyEncryption?
    ensures var s := SendEncrypted(p, PairedKeyResultFrame());
            Briefed(s.p) && Briefed(Enter(s.p, SentPairedKeyResult, false))
  {
    LetterBriefed(p, PairedKeyResultFrame());
    var s := SendEncrypted(p, PairedKeyResultFrame());
    EarlyBriefed(s.p, Enter(s.p, SentPairedKeyResult, false));
  }

  lemma SenderSetupBriefed(p: Peer, v1: ShareV1)
    requires Briefed(p) && OutboundSafety.Inv(p)
    ensures Briefed(O.OnSetupV1(p, v1).p)
  {
    match p.st.state {
      case SentPairedKeyEncryption => PairedBriefed(p);
      case SentPairedKeyResult => OfferBriefed(p, v1);
      case SentIntroduction => ConsentBriefed(p, v1);
      case _ =>
    }
  }

  lemma SenderCompleteBriefed(p: Peer, data: Bytes)
    requires Briefed(p) && OutboundSafety.Inv(p)
    ensures Briefed(O.OnComplete(p, data).p)
  {
    match p.env.lib.decShare(data) {
      case Some(ShareFrame(Some(v1))) =>
        if v1.stype.CancelType? {
          EndBriefed(p, Cancelled);
        } else {
          SenderSetupBriefed(p, v1);
        }
      case _ =>
    }
  }

  lemma SenderBytesBriefed(p: Peer, header: PayloadHeader, chunk: PayloadChunk)
    requires Briefed(p) && OutboundSafety.Inv(p)
    ensures Briefed(O.OnBytes(p, header, chunk).p)
  {
    var g := Gather(p, header, chunk);
    SilentBriefed(p, g.p);
    OutboundSafety.UnmovedInv(p, g.p);
    if g.complete.Some? {
      SenderCompleteBriefed(g.p, g.complete.value);
    }
  }

  lemma SenderFrameBriefed(p: Peer, v1: V1Frame)
    requires Briefed(p) && OutboundSafety.Inv(p)
    ensures Briefed(O.OnV1(p, v1).p)
  {
    match v1 {
      case Payload(Some(PayloadTransfer(Some(header), Some(chunk)))) => SenderBytesBriefed(p, header, chunk);
      case KeepAlive(_) => SendBriefed(p, OfflineFrame(Some(KeepAlive(true))));
      case _ =>
    }
  }

  lemma SenderSecureBriefed(p: Peer, wire: Bytes)
    requires Briefed(p) && OutboundSafety.Inv(p)
    ensures Briefed(O.OnSecure(p, wire).p)
  {
    var i := ReceiveSecure(p, wire);
    SilentBriefed(p, i.p);
    OutboundSafety.UnmovedInv(p, i.p);
    if i.r.Ok? {
      SenderFrameBriefed(i.p, i.frame);
    }
  }

  lemma SenderWireBriefed(p: Peer, wire: Bytes)
    requires Briefed(p) && OutboundSafety.Inv(p)
    ensures Briefed(O.OnFrame(p, wire).p)
  {
    match p.st.state {
      case SentUkeyClientInit => ServerInitBriefed(p, wire);
      case SentUkeyClientFinish => ResponseBriefed(p, wire);
      case _ => SenderSecureBriefed(p, wire);
    }
  }

  lemma SenderBriefed(p: Peer, e: Event)
    requires Briefed(p) && OutboundSafety.Inv(p)
    ensures Briefed(O.Handle(p, e).p)
  {
    match e {
      case Frame(wire) => SenderWireBriefed(p, wire);
      case Front(_, _) => EndBriefed(p, Cancelled);
      case Closed =>
    }
  }

  lemma OpeningBriefed(env: Env, io: Option<nat>)
    ensures Briefed(OutboundSafety.Opened(env, io).p)
  {
  }

  /** At every point of every run against any peer, the sender's front end is briefed. */
  lemma {:induction false} SenderAlwaysBriefed(p: Peer, events: seq<Event>)
    requires Briefed(p) && OutboundSafety.Inv(p) && OutboundSafety.DistinctIds(p.env)
    requires OutboundSafety.SensibleRun(p, events)
    ensures Briefed(OutboundSafety.Run(p, events).p)
    decreases |events|
  {
    if |events| > 0 {
      SenderBriefed(p, events[0]);
      OutboundSafety.HandleSafe(p, events[0]);
      if O.Handle(p, events[0]).r.Ok? {
        SenderAlwaysBriefed(O.Handle(p, events[0]).p, events[1..]);
      }
    }
  }
}
