/** What the sender keeps against any peer: any bytes on the socket, any I/O failure, any short reads and
    any order of files. */
module OutboundSafety {
  import opened Wrappers
  import opened Messages
  import opened Libraries
  import opened SecureChannel
  import opened Peers
  import opened Outbound
  import opened Ledgers

  // Between events the sender is in one of these; SendingFiles never outlasts an event.
  predicate Running(s: State) {
    s.SentUkeyClientInit? || s.SentUkeyClientFinish? || s.SentPairedKeyEncryption?
    || s.SentPairedKeyResult? || s.SentIntroduction? || s.Finished?
  }

  /** Which optional fields are there: the own handshake messages always, the server's init and the
      session keys exactly from SentUkeyClientFinish on. */
  ghost predicate Fields(p: Peer) {
    var rank, hs := Rank(p.st.state), p.st.hs;
    && hs.privateKey.Some? && hs.clientInit.Some? && hs.clientFinish.Some?
    && (hs.serverInit.Some? <==> rank >= 3)
    && (p.keys.Some? <==> rank >= 3)
    && (p.st.pin.Some? <==> rank >= 3)
  }

  predicate LastSays(told: seq<ChannelMessage>, state: State) {
    |told| > 0 && told[|told| - 1].state == state
  }

  /** Nothing is announced before the keys; all messages carry the session's id; a closing state was
      the last thing announced. */
  ghost predicate Voice(p: Peer) {
    && (p.keys.None? ==> p.told == [])
    && (forall m | m in p.told :: m.id == p.env.id)
    && (Terminal(p.st.state) ==> LastSays(p.told, p.st.state))
    && (|p.told| > 0 && Terminal(p.told[|p.told| - 1].state) ==> Terminal(p.st.state))
  }

  /** The counters: acknowledged plus outstanding bytes are exactly the announced total, and progress
      broadcasts are covered by acknowledged bytes. */
  ghost predicate Books(p: Peer) {
    && p.st.meta.Some?
    && var m := p.st.meta.value;
       && 0 <= p.st.lastNotified
       && 0 <= m.ackBytes - p.st.lastNotified < NOTIFY_STEP
       && m.ackBytes + Outstanding(p.st.files) == m.totalBytes
       && ProgressCount(p.told) * NOTIFY_STEP <= p.st.lastNotified
       && (Rank(p.st.state) < 8 ==> m.ackBytes == 0)
  }

  ghost predicate NotYetAnnounced(p: Peer) {
    Rank(p.st.state) < 6 ==> p.st.files == map[]
  }

  ghost predicate Inv(p: Peer) {
    Running(p.st.state) && Fields(p) && Voice(p) && Books(p) && FilesOk(p.st.files) && NotYetAnnounced(p)
  }

  ghost predicate Closing(s: Step)
    requires s.r.Err?
  {
    && Books(s.p) && Voice(s.p)
    && (s.r.error.NotAnError? ==> Terminal(s.p.st.state))
    && (s.r.error.Panic? ==> Abortable(s.p.st.state, s.r.error.abort))
  }

  /** The only aborts: a server key off the curve, and a negative payload size. */
  predicate Abortable(s: State, a: Abort) {
    match a
    case PointOffCurve => s.SentUkeyClientInit?
    case Overflow => Rank(s) >= 4
    case _ => false
  }

  ghost predicate Safe(before: Peer, s: Step) {
    && s.p.env == before.env
    && Rank(before.st.state) <= Rank(s.p.st.state)
    && (s.r.Ok? ==> Inv(s.p))
    && (s.r.Err? ==> Closing(s))
  }

  // File payload ids are drawn at random from 64 bits; those drawn for one offer are taken to be distinct.
  ghost predicate DistinctIds(env: Env) {
    forall i: nat, j: nat | i < j < |env.payload| :: env.tape.fileIds(i) != env.tape.fileIds(j)
  }

  /** The connection as `connect` opens it: the request and the client init are out. */
  function Opened(env: Env, io: Option<nat>): Step {
    var s := SendConnectionRequest(Start(env, io));
    if s.r.Err? then s else SendClientInit(s.p)
  }

  lemma OpenedInv(env: Env, io: Option<nat>)
    requires Opened(env, io).r.Ok?
    ensures Inv(Opened(env, io).p) && Opened(env, io).p.env == env
  {
  }

  // --- Steps common to several branches ----------------------------------------------------------

  ghost predicate Unmoved(p: Peer, q: Peer) {
    q == p.(st := p.st.(serverSeq := q.st.serverSeq, clientSeq := q.st.clientSeq, buffers := q.st.buffers),
            io := q.io, out := q.out, sent := q.sent)
  }

  lemma UnmovedInv(p: Peer, q: Peer)
    requires Inv(p) && Unmoved(p, q)
    ensures Inv(q)
  {
  }

  lemma Onward(p: Peer, q: Peer, s: Step)
    requires Unmoved(p, q) && Safe(q, s)
    ensures Safe(p, s)
  {
  }

  lemma ErrorSafe(p: Peer, q: Peer, e: Failure)
    requires Inv(p) && Unmoved(p, q) && !e.NotAnError?
    requires e.Panic? ==> Abortable(p.st.state, e.abort)
    ensures Safe(p, Step(q, Err(e)))
  {
  }

  /** A broadcast outside a transfer leaves the counters alone. */
  lemma TellBooks(p: Peer, q: Peer, m: ChannelMessage)
    requires Books(p) && !m.state.ReceivingFiles? && !m.state.SendingFiles?
    requires q.st.meta == p.st.meta && q.st.files == p.st.files && q.st.lastNotified == p.st.lastNotified
    requires q.told == p.told + [m] && Rank(p.st.state) <= Rank(q.st.state)
    ensures Books(q)
  {
    CountOne(p.told, m);
  }

  lemma TellVoice(p: Peer, q: Peer, m: ChannelMessage)
    requires Voice(p) && q.env == p.env && q.told == p.told + [m]
    requires m.id == p.env.id && m.state == q.st.state && q.keys.Some?
    ensures Voice(q)
  {
  }

  /** A session that ends with a closing broadcast m ends as it should. */
  lemma ClosedSafe(p: Peer, s: Step, m: ChannelMessage)
    requires Inv(p) && p.keys.Some? && s.p.keys == p.keys && s.p.env == p.env
    requires Terminal(s.p.st.state) && !s.p.st.state.Finished? && m.state == s.p.st.state && m.id == p.env.id
    requires s.p.st.meta == p.st.meta && s.p.st.files == p.st.files && s.p.st.lastNotified == p.st.lastNotified
    requires s.p.told == p.told + [m]
    requires s.r == Err(NotAnError) || s.r == Err(Io)
    ensures Safe(p, s)
  {
    TellBooks(p, s.p, m);
    TellVoice(p, s.p, m);
  }

  lemma EndSafe(p: Peer, state: State)
    requires Inv(p) && p.keys.Some? && Terminal(state) && !state.Finished?
    ensures Safe(p, End(p, state))
  {
    ClosedSafe(p, End(p, state), ChannelMessage(p.env.id, state, p.st.meta));
  }

  lemma SendSafe(p: Peer, frame: OfflineFrame)
    requires Inv(p) && p.keys.Some?
    ensures Safe(p, EncryptAndSend(p, frame))
  {
    var s := EncryptAndSend(p, frame);
    UnmovedInv(p, s.p);
    if s.r.Err? {
      ErrorSafe(p, s.p, Io);
    }
  }

  lemma EnterInv(p: Peer, state: State)
    requires Inv(p) && 3 <= Rank(p.st.state) <= Rank(state) <= 5 && Running(state)
    ensures Inv(Enter(p, state, false))
  {
  }

  // --- Handshake -----------------------------------------------------------------------------------

  // p with the server's message noted, as `_handle` stores it before it is checked.
  function Noted(p: Peer, wire: Bytes): Peer {
    p.(st := p.st.(hs := p.st.hs.(serverInit := Some(wire))))
  }

  lemma NotedFinalize(p: Peer, wire: Bytes, key: PublicKeyMsg)
    requires Inv(p) && p.st.state.SentUkeyClientInit?
    ensures var s := Finalize(Noted(p, wire), key);
            && Books(s.p) && Voice(s.p) && s.p.st.state == p.st.state && s.p.st.hs == Noted(p, wire).st.hs
            && (s.r.Ok? ==> s.p.keys.Some? && s.p.st.pin.Some?)
            && (s.r.Err? ==> s.r.error.Refused? || s.r.error == Panic(PointOffCurve))
  {
    var q := Noted(p, wire);
    var s := Finalize(q, key);
    if s.r.Ok? {
      CountOne(p.told, ChannelMessage(p.env.id, SentUkeyClientInit, s.p.st.meta));
    }
  }

  lemma RefusedInit(p: Peer, wire: Bytes, reason: Reason)
    requires Inv(p) && p.st.state.SentUkeyClientInit?
    ensures Safe(p, RefuseServerInit(Noted(p, wire), reason))
  {
    var q := Noted(p, wire);
    var s := RefuseServerInit(q, reason);
    assert s.p == q.(io := s.p.io, out := s.p.out) && (s.r == Err(Refused(reason)) || s.r == Err(Io));
  }

  /** What the key exchange leaves behind, before the state moves on. */
  ghost predicate Exchanged(p: Peer, s: Step) {
    && s.p.env == p.env && s.p.st.state.SentUkeyClientInit? && s.p.st.files == p.st.files
    && Books(s.p) && Voice(s.p)
    && s.p.st.hs == p.st.hs.(serverInit := s.p.st.hs.serverInit) && s.p.st.hs.serverInit.Some?
    && (s.r.Ok? ==> s.p.keys.Some? && s.p.st.pin.Some?)
    && (s.r.Err? ==> s.r.error.Refused? || s.r.error.Io? || s.r.error == Panic(PointOffCurve))
  }

  lemma AcceptedInit(p: Peer, wire: Bytes, m: Ukey2Message)
    requires Inv(p) && p.st.state.SentUkeyClientInit? && CheckServerInit(m).None?
    ensures Exchanged(p, ProcessServerInit(Noted(p, wire), m))
  {
    NotedFinalize(p, wire, m.serverInit.value.publicKey.value);
  }

  lemma ExchangedSafe(p: Peer, s: Step)
    requires Inv(p) && p.st.state.SentUkeyClientInit? && Exchanged(p, s)
    ensures Safe(p, if s.r.Err? then s else Step(Enter(s.p, SentUkeyClientFinish, false), Ok))
  {
  }

  lemma ServerInitSafe(p: Peer, wire: Bytes)
    requires Inv(p) && p.st.state.SentUkeyClientInit?
    ensures Safe(p, OnServerInit(p, wire))
  {
    var decoded := p.env.lib.decUkey(wire);
    if decoded.None? {
      ErrorSafe(p, p, Refused(Undecodable));
    } else if CheckServerInit(decoded.value).Some? {
      RefusedInit(p, wire, CheckServerInit(decoded.value).value);
    } else {
      AcceptedInit(p, wire, decoded.value);
      ExchangedSafe(p, ProcessServerInit(Noted(p, wire), decoded.value));
    }
  }

  lemma PairingInv(p: Peer, wire: Bytes)
    requires Inv(p) && p.st.state.SentUkeyClientFinish?
    ensures Inv(p.(st := p.st.(state := SentPairedKeyEncryption, hs := p.st.hs.(serverInit := Some(wire)))))
  {
  }

  lemma RespondedSafe(p: Peer, s: Step, wire: Bytes)
    requires Inv(p) && p.st.state.SentUkeyClientFinish? && Unmoved(p, s.p)
    requires s.r.Err? ==> s.r.error.Refused? || s.r.error.Io?
    ensures Safe(p, if s.r.Err? then s
                    else Step(s.p.(st := s.p.st.(state := SentPairedKeyEncryption,
                                                 hs := s.p.st.hs.(serverInit := Some(wire)))), Ok))
  {
    UnmovedInv(p, s.p);
    if s.r.Err? {
      ErrorSafe(p, s.p, s.r.error);
    } else {
      PairingInv(s.p, wire);
    }
  }

  lemma ConnectionResponseSafe(p: Peer, wire: Bytes)
    requires Inv(p) && p.st.state.SentUkeyClientFinish?
    ensures Safe(p, OnConnectionResponse(p, wire))
  {
    var decoded := p.env.lib.decOffline(wire);
    if decoded.None? {
      ErrorSafe(p, p, Refused(Undecodable));
    } else {
      RespondedSafe(p, ProcessConnectionResponse(p, decoded.value), wire);
    }
  }

  // --- Announcing --------------------------------------------------------------------------------------

  /** Every id in the table is one of those drawn for the list. */
  ghost predicate Drawn(env: Env, a: Announcement) {
    forall id | id in a.files :: exists i: nat | i < |a.list| :: id == env.tape.fileIds(i)
  }

  lemma DrawnNext(env: Env, a: Announcement, f: SourceFile)
    requires Drawn(env, a) && f.Regular?
    ensures Drawn(env, Announce(a, env, f))
  {
    forall j | j in Announce(a, env, f).files
      ensures exists i: nat | i < |a.list| + 1 :: j == env.tape.fileIds(i)
    {
      if j != env.tape.fileIds(|a.list|) {
        var i: nat :| i < |a.list| && j == env.tape.fileIds(i);
      }
    }
  }

  lemma AnnouncedOne(env: Env, a: Announcement, f: SourceFile)
    requires DistinctIds(env) && Drawn(env, a) && f.Regular? && |a.list| < |env.payload|
    requires Outstanding(a.files) == a.total && FilesOk(a.files)
    ensures var b := Announce(a, env, f); Outstanding(b.files) == b.total && FilesOk(b.files) && Drawn(env, b)
  {
    DrawnNext(env, a, f);
    PutIn(a.files, env.tape.fileIds(|a.list|), FileInfo(f.name, 0, |f.data|, Some(OpenFile(f.data, 0))));
  }

  /** With distinct ids the table holds every announced file, so its sizes add up to the total. */
  lemma {:induction false} AnnouncedBooks(env: Env, k: nat)
    requires k <= |env.payload| && DistinctIds(env)
    ensures var a := Announced(env, k);
            |a.list| <= k && Outstanding(a.files) == a.total && FilesOk(a.files) && Drawn(env, a)
  {
    if k > 0 {
      AnnouncedBooks(env, k - 1);
      var a, f := Announced(env, k - 1), env.payload[k - 1];
      if f.Regular? {
        AnnouncedOne(env, a, f);
      }
    }
  }

  /** The announced table and its total, before they are sent. */
  function Listed(p: Peer): Peer {
    var a := Announced(p.env, |p.env.payload|);
    Update(p, p.st.(meta := WithTotal(p.st.meta, a.total), files := a.files), false)
  }

  lemma ListedBooks(p: Peer)
    requires Inv(p) && p.st.state.SentPairedKeyResult? && DistinctIds(p.env)
    ensures Books(Listed(p)) && FilesOk(Listed(p).st.files)
  {
    AnnouncedBooks(p.env, |p.env.payload|);
  }

  lemma IntroducedInv(p: Peer, q: Peer)
    requires Fields(p) && Voice(p) && Books(p) && FilesOk(p.st.files) && p.st.state.SentPairedKeyResult?
    requires q == Enter(p, SentIntroduction, true)
    ensures Inv(q)
  {
    var m := ChannelMessage(p.env.id, SentIntroduction, p.st.meta);
    TellBooks(p, q, m);
    TellVoice(p, q, m);
  }

  lemma ListedSends(p: Peer, q: Peer)
    requires Inv(p) && p.st.state.SentPairedKeyResult? && DistinctIds(p.env) && Unmoved(Listed(p), q)
    ensures Fields(q) && Voice(q) && Books(q) && FilesOk(q.st.files) && q.st.state.SentPairedKeyResult?
    ensures q.env == p.env
  {
    ListedBooks(p);
  }

  lemma ListedErrorSafe(p: Peer, s: Step)
    requires Inv(p) && p.st.state.SentPairedKeyResult? && DistinctIds(p.env)
    requires Unmoved(Listed(p), s.p) && s.r == Err(Io)
    ensures Safe(p, s)
  {
    ListedSends(p, s.p);
  }

  /** The introduction went out, or did not. */
  lemma IntroducedSafe(p: Peer, s: Step)
    requires Inv(p) && p.st.state.SentPairedKeyResult? && DistinctIds(p.env)
    requires Unmoved(Listed(p), s.p) && (s.r.Ok? || s.r == Err(Io))
    ensures Safe(p, if s.r.Err? then s else Step(Enter(s.p, SentIntroduction, true), Ok))
  {
    if s.r.Err? {
      ListedErrorSafe(p, s);
    } else {
      ListedSends(p, s.p);
      IntroducedInv(s.p, Enter(s.p, SentIntroduction, true));
    }
  }

  lemma IntroductionSent(p: Peer, v1: ShareV1)
    requires v1.hasPairedKeyResult && p.keys.Some?
    ensures var s := SendEncrypted(Listed(p), IntroductionFrame(Announced(p.env, |p.env.payload|).list));
            && Unmoved(Listed(p), s.p) && (s.r.Ok? || s.r == Err(Io))
            && OnPairedKeyResult(p, v1) == if s.r.Err? then s else Step(Enter(s.p, SentIntroduction, true), Ok)
  {
  }

  lemma IntroductionSafe(p: Peer, v1: ShareV1)
    requires Inv(p) && p.st.state.SentPairedKeyResult? && DistinctIds(p.env)
    ensures Safe(p, OnPairedKeyResult(p, v1))
  {
    if !v1.hasPairedKeyResult {
      ErrorSafe(p, p, Refused(MissingField));
    } else {
      IntroductionSent(p, v1);
      IntroducedSafe(p, SendEncrypted(Listed(p), IntroductionFrame(Announced(p.env, |p.env.payload|).list)));
    }
  }

  // --- Sending -------------------------------------------------------------------------------------------

  /** What holds inside the sending loops. */
  ghost predicate LoopInv(p: Peer) {
    p.st.state.SendingFiles? && Fields(p) && Voice(p) && Books(p) && FilesOk(p.st.files)
  }

  lemma LoopUnmoved(p: Peer, q: Peer)
    requires LoopInv(p) && Unmoved(p, q)
    ensures LoopInv(q)
  {
  }

  lemma {:induction false} ProgressBooks(p: Peer, files: map<int, FileInfo>, n: nat)
    requires Books(p) && p.st.state.SendingFiles? && n > 0
    requires Outstanding(files) + n == Outstanding(p.st.files)
    ensures Books(Progress(p, files, n))
  {
    var q := Progress(p, files, n);
    CountOne(p.told, ChannelMessage(p.env.id, p.st.state, q.st.meta));
  }

  lemma ProgressVoice(p: Peer, files: map<int, FileInfo>, n: nat)
    requires Voice(p) && p.st.state.SendingFiles? && p.keys.Some?
    ensures Voice(Progress(p, files, n))
  {
    var q := Progress(p, files, n);
    if q.told != p.told {
      TellVoice(p, q, ChannelMessage(p.env.id, p.st.state, q.st.meta));
    }
  }

  lemma {:induction false} ProgressLoop(p: Peer, files: map<int, FileInfo>, n: nat)
    requires LoopInv(p) && FilesOk(files) && n > 0
    requires Outstanding(files) + n == Outstanding(p.st.files)
    ensures LoopInv(Progress(p, files, n)) && Progress(p, files, n).env == p.env
  {
    ProgressBooks(p, files, n);
    ProgressVoice(p, files, n);
  }

  lemma AdvanceOutstanding(files: map<int, FileInfo>, id: int, n: nat)
    requires FilesOk(files) && id in files && files[id].handle.Some?
    requires n <= files[id].total - files[id].transferred
    ensures var g := Advance(files[id], n);
            FilesOk(files[id := g]) && Outstanding(files[id := g]) + n == Outstanding(files)
  {
    TakeOut(files, id);
    PutIn(files, id, Advance(files[id], n));
  }

  lemma ReadLoop(p: Peer, id: int, f: FileInfo, body: Bytes)
    requires LoopInv(p) && id in p.st.files && p.st.files[id] == f && f.handle.Some?
    requires 0 < |body| <= f.total - f.transferred
    ensures var s := SendRead(p, id, f, body);
            LoopInv(s.p) && s.p.env == p.env && (s.r.Ok? || s.r == Err(Io))
  {
    var s := EncryptAndSend(p, ChunkFrame(id, f, body));
    LoopUnmoved(p, s.p);
    if s.r.Ok? {
      AdvanceOutstanding(p.st.files, id, |body|);
      ProgressLoop(s.p, p.st.files[id := Advance(f, |body|)], |body|);
      var q := Progress(s.p, p.st.files[id := Advance(f, |body|)], |body|);
      LoopUnmoved(q, EncryptAndSend(q, EndFrame(id, f)).p);
    }
  }

  lemma ChunkLoop(p: Peer, id: int)
    requires LoopInv(p) && id in p.st.files && p.st.files[id].handle.Some?
    requires p.st.files[id].transferred != p.st.files[id].total
    ensures var s := SendChunk(p, id);
            LoopInv(s.p) && s.p.env == p.env && (s.r.Ok? || s.r == Err(Io))
  {
    var f := p.st.files[id];
    LoopUnmoved(p, Spend(p));
    ReadLoop(Spend(p), id, f, Slice(p.env.tape, id, f));
  }

  lemma DropLoop(p: Peer, id: int)
    requires LoopInv(p) && id in p.st.files && p.st.files[id].transferred == p.st.files[id].total
    ensures LoopInv(Update(p, p.st.(files := p.st.files - {id}), false))
  {
    TakeOut(p.st.files, id);
  }

  lemma TurnLoop(p: Peer, job: seq<int>)
    requires LoopInv(p) && |job| > 0
    ensures var t := Turn(p, job); LoopInv(t.p) && t.p.env == p.env && (t.r.Ok? || t.r == Err(Io))
  {
    var id := job[0];
    if id in p.st.files {
      if p.st.files[id].transferred == p.st.files[id].total {
        DropLoop(p, id);
      } else if p.st.files[id].handle.Some? {
        ChunkLoop(p, id);
      }
    }
  }

  ghost predicate LoopSafe(p: Peer, s: Step) {
    && s.p.env == p.env && Rank(s.p.st.state) >= 8
    && (s.r.Ok? ==> Inv(s.p) && s.p.st.state.Finished?)
    && (s.r.Err? ==> s.r.error.Io? && Books(s.p) && Voice(s.p))
  }

  lemma FinishSafe(p: Peer)
    requires LoopInv(p)
    ensures LoopSafe(p, FinishSending(p))
  {
    var q, m := Enter(p, Finished, true), ChannelMessage(p.env.id, Finished, p.st.meta);
    TellBooks(p, q, m);
    TellVoice(p, q, m);
    UnmovedInv(q, Disconnect(q).p);
  }

  lemma {:induction false} SendLoopSafe(p: Peer, job: seq<int>)
    requires LoopInv(p)
    ensures LoopSafe(p, SendLoop(p, job))
    decreases |job|, BytesLeft(p.st.files, job)
  {
    if |job| == 0 {
      FinishSafe(p);
    } else {
      TurnLoop(p, job);
      TurnKeepsFiles(p, job);
      var t := Turn(p, job);
      if t.r.Ok? {
        SendLoopSafe(t.p, t.job);
      }
    }
  }

  lemma BeginBooks(p: Peer, q: Peer, m: ChannelMessage)
    requires Books(p) && p.st.state.SentIntroduction? && q.st.state.SendingFiles?
    requires m.state.SendingFiles? && m.meta == p.st.meta && q.told == p.told + [m]
    requires q.st.meta == p.st.meta && q.st.files == p.st.files && q.st.lastNotified == p.st.lastNotified
    ensures Books(q)
  {
    CountOne(p.told, m);
  }

  lemma BeginLoop(p: Peer)
    requires Inv(p) && p.st.state.SentIntroduction?
    ensures LoopInv(BeginSending(p)) && BeginSending(p).env == p.env
  {
    var q, m := BeginSending(p), ChannelMessage(p.env.id, SendingFiles, p.st.meta);
    BeginBooks(p, q, m);
    TellVoice(p, q, m);
  }

  lemma LoopedSafe(p: Peer, s: Step)
    requires Inv(p) && p.st.state.SentIntroduction? && LoopSafe(BeginSending(p), s)
    ensures Safe(p, s)
  {
  }

  lemma ConsentSafe(p: Peer, v1: ShareV1)
    requires Inv(p) && p.st.state.SentIntroduction?
    ensures Safe(p, ProcessConsent(p, v1))
  {
    if v1.stype != ResponseType || v1.response.None? {
      ErrorSafe(p, p, Refused(MissingField));
    } else if v1.response.value == Accept {
      BeginLoop(p);
      var q := BeginSending(p);
      SendLoopSafe(q, p.env.tape.order(q.st.files.Keys));
      LoopedSafe(p, SendLoop(q, p.env.tape.order(q.st.files.Keys)));
    } else {
      EndSafe(p, Disconnected);
    }
  }

  // --- Every event -----------------------------------------------------------------------------------------

  lemma PairedGoes(p: Peer, q: Peer)
    requires Inv(p) && p.st.state.SentPairedKeyEncryption? && Unmoved(p, q)
    ensures Safe(p, Step(Enter(q, SentPairedKeyResult, false), Ok))
  {
    UnmovedInv(p, q);
    EnterInv(q, SentPairedKeyResult);
  }

  lemma PairedSafe(p: Peer, s: Step)
    requires Inv(p) && p.st.state.SentPairedKeyEncryption? && s == SendEncrypted(p, PairedKeyResultFrame())
    ensures Safe(p, if s.r.Err? then s else Step(Enter(s.p, SentPairedKeyResult, false), Ok))
  {
    if s.r.Err? {
      ErrorSafe(p, s.p, s.r.error);
    } else {
      PairedGoes(p, s.p);
    }
  }

  lemma SetupV1Safe(p: Peer, v1: ShareV1)
    requires Inv(p) && Rank(p.st.state) >= 4 && DistinctIds(p.env)
    ensures Safe(p, OnSetupV1(p, v1))
  {
    match p.st.state {
      case SentPairedKeyEncryption =>
        ErrorSafe(p, p, Refused(MissingField));
        PairedSafe(p, SendEncrypted(p, PairedKeyResultFrame()));
      case SentPairedKeyResult => IntroductionSafe(p, v1);
      case SentIntroduction => ConsentSafe(p, v1);
      case _ =>
    }
  }

  lemma CompleteSafe(p: Peer, data: Bytes)
    requires Inv(p) && Rank(p.st.state) >= 4 && DistinctIds(p.env)
    ensures Safe(p, OnComplete(p, data))
  {
    var decoded := p.env.lib.decShare(data);
    if decoded.None? {
      ErrorSafe(p, p, Refused(Undecodable));
    } else if decoded.value.v1.None? {
      ErrorSafe(p, p, Refused(MissingField));
    } else if decoded.value.v1.value.stype.CancelType? {
      EndSafe(p, Cancelled);
    } else {
      SetupV1Safe(p, decoded.value.v1.value);
    }
  }

  lemma BytesSafe(p: Peer, header: PayloadHeader, chunk: PayloadChunk)
    requires Inv(p) && Rank(p.st.state) >= 4 && DistinctIds(p.env)
    ensures Safe(p, OnBytes(p, header, chunk))
  {
    var g := Gather(p, header, chunk);
    UnmovedInv(p, g.p);
    if g.r.Err? {
      ErrorSafe(p, g.p, g.r.error);
    } else if g.complete.Some? {
      CompleteSafe(g.p, g.complete.value);
      Onward(p, g.p, OnComplete(g.p, g.complete.value));
    }
  }

  lemma V1Safe(p: Peer, v1: V1Frame)
    requires Inv(p) && Rank(p.st.state) >= 4 && DistinctIds(p.env)
    ensures Safe(p, OnV1(p, v1))
  {
    match v1 {
      case Payload(Some(PayloadTransfer(Some(header), Some(chunk)))) =>
        if header.ptype.BytesPayload? {
          BytesSafe(p, header, chunk);
        }
      case Payload(_) => ErrorSafe(p, p, Refused(MissingField));
      case KeepAlive(_) => SendSafe(p, OfflineFrame(Some(KeepAlive(true))));
      case _ =>
    }
  }

  lemma SecureSafe(p: Peer, wire: Bytes)
    requires Inv(p) && Rank(p.st.state) >= 4 && DistinctIds(p.env)
    ensures Safe(p, OnSecure(p, wire))
  {
    var i := ReceiveSecure(p, wire);
    UnmovedInv(p, i.p);
    if i.r.Err? {
      ErrorSafe(p, i.p, i.r.error);
    } else {
      V1Safe(i.p, i.frame);
      Onward(p, i.p, OnV1(i.p, i.frame));
    }
  }

  // The front end acts only on a session it has heard of.
  predicate Sensible(p: Peer, e: Event) {
    match e
    case Front(id, action) => id == p.env.id ==> p.told != []
    case _ => true
  }

  /** One event, from any peer: the state moves forward only; the invariant holds after it or the run
      ends as `Closing` says. */
  lemma HandleSafe(p: Peer, e: Event)
    requires Inv(p) && DistinctIds(p.env) && Sensible(p, e)
    ensures Safe(p, Handle(p, e))
  {
    match e {
      case Frame(wire) =>
        if |wire| > SANE_FRAME_LENGTH {
          ErrorSafe(p, p, Refused(FrameTooBig));
        } else {
          match p.st.state {
            case SentUkeyClientInit => ServerInitSafe(p, wire);
            case SentUkeyClientFinish => ConnectionResponseSafe(p, wire);
            case _ => SecureSafe(p, wire);
          }
        }
      case Front(id, action) =>
        if id == p.env.id && action.CancelTransfer? {
          EndSafe(p, Cancelled);
        }
      case Closed =>
        ErrorSafe(p, p, Io);
    }
  }

  // --- Whole runs --------------------------------------------------------------------------------------------

  ghost predicate SensibleRun(p: Peer, events: seq<Event>)
    requires Inv(p) && DistinctIds(p.env)
    decreases |events|
  {
    |events| > 0 ==>
      && Sensible(p, events[0])
      && var s := Handle(p, events[0]);
         HandleSafe(p, events[0]);
         s.r.Ok? ==> SensibleRun(s.p, events[1..])
  }

  /** The connection's loop: events are handled until one ends the session. */
  ghost function Run(p: Peer, events: seq<Event>): Step
    requires Inv(p) && DistinctIds(p.env) && SensibleRun(p, events)
    decreases |events|
  {
    if |events| == 0 then Step(p, Ok)
    else
      var s := Handle(p, events[0]);
      HandleSafe(p, events[0]);
      if s.r.Err? then s else Run(s.p, events[1..])
  }

  /** Every run of an opened connection, whatever the peer sends: it only moves forward, keeps the
      invariant while it lasts, and ends as `Closing` says. */
  lemma {:induction false} RunSafe(p: Peer, events: seq<Event>)
    requires Inv(p) && DistinctIds(p.env) && SensibleRun(p, events)
    ensures Safe(p, Run(p, events))
    decreases |events|
  {
    if |events| > 0 {
      HandleSafe(p, events[0]);
      var s := Handle(p, events[0]);
      if s.r.Ok? {
        RunSafe(s.p, events[1..]);
      }
    }
  }
}
