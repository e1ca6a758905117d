/** The composed session from consent on: the acceptance, the sender's turns, and every chunk the receiver
    reads. */
module SessionTransfer {
  import opened Wrappers
  import opened Messages
  import opened Libraries
  import opened SecureChannel
  import opened Peers
  import opened Ledgers
  import opened Reassembly
  import opened Sessions
  import opened SessionHandshake
  import opened Delivery
  import I = Inbound
  import O = Outbound
  import InboundSafety
  import OutboundSafety

  // --- What is offered -----------------------------------------------------------------------------

  predicate Untouched(f: FileInfo) {
    f.transferred == 0 && f.handle.Some? && f.handle.value.cursor == 0 && |f.handle.value.data| == f.total
  }

  lemma {:induction false} OfferUntouched(env: Env, k: nat)
    requires k <= |env.payload|
    ensures forall id | id in O.Announced(env, k).files :: Untouched(O.Announced(env, k).files[id])
  {
    if k > 0 {
      OfferUntouched(env, k - 1);
    }
  }

  /** The readable files of a payload, in order. */
  function Regulars(payload: seq<SourceFile>, k: nat): (files: seq<SourceFile>)
    requires k <= |payload|
    ensures |files| <= k
  {
    if k == 0 then []
    else Regulars(payload, k - 1) + if payload[k - 1].Regular? then [payload[k - 1]] else []
  }

  /** Entry i of the announcement is this file, under its own id and with its own bytes. */
  ghost predicate Carried(env: Env, a: Announcement, i: nat, f: SourceFile) {
    && i < |a.list| && f.Regular? && a.list[i] == FileMetadata(env.tape.fileIds(i), f.name, |f.data|)
    && env.tape.fileIds(i) in a.files && Data(a.files[env.tape.fileIds(i)]) == f.data
  }

  ghost predicate Carries(env: Env, a: Announcement, fs: seq<SourceFile>) {
    |a.list| == |fs| && forall i | 0 <= i < |fs| :: Carried(env, a, i, fs[i])
  }

  lemma CarriesNext(env: Env, a: Announcement, fs: seq<SourceFile>, f: SourceFile)
    requires Carries(env, a, fs) && f.Regular? && OutboundSafety.DistinctIds(env) && |fs| < |env.payload|
    ensures Carries(env, O.Announce(a, env, f), fs + [f])
  {
    var b, n := O.Announce(a, env, f), |a.list|;
    forall i | 0 <= i <= n
      ensures Carried(env, b, i, (fs + [f])[i])
    {
      if i < n {
        assert Carried(env, a, i, fs[i]) && env.tape.fileIds(i) != env.tape.fileIds(n);
      }
    }
  }

  /** Every readable file is offered, under its own id and with its own bytes. */
  lemma {:induction false} OfferIsPayload(env: Env, k: nat)
    requires k <= |env.payload| && OutboundSafety.DistinctIds(env)
    ensures Carries(env, O.Announced(env, k), Regulars(env.payload, k))
  {
    if k > 0 {
      OfferIsPayload(env, k - 1);
      if env.payload[k - 1].Regular? {
        CarriesNext(env, O.Announced(env, k - 1), Regulars(env.payload, k - 1), env.payload[k - 1]);
      }
    }
  }

  lemma OfferNotEmpty(c: Plan)
    requires HonestFiles(c.sEnv, c.rEnv)
    ensures Offered(c.sEnv).Keys != {} && Offered(c.sEnv).Keys == Offer(c.sEnv).files.Keys
  {
    OfferIsPayload(c.sEnv, |c.sEnv.payload|);
    assert Carried(c.sEnv, Offer(c.sEnv), 0, Regulars(c.sEnv.payload, |c.sEnv.payload|)[0]);
    assert c.sEnv.tape.fileIds(0) in Offered(c.sEnv);
  }

  // --- Acceptance ------------------------------------------------------------------------------------

  function Opened(f: FileInfo): FileInfo {
    f.(handle := Some(OpenFile([], 0)))
  }

  /** Every listed file is created empty; the rest of the session is untouched. */
  lemma {:induction false} CreateAllEffect(p: Peer, ids: seq<int>)
    requires p.io.None? && forall i | 0 <= i < |ids| :: ids[i] in p.st.files
    ensures var s := I.CreateAll(p, ids);
            && s.r.Ok?
            && s.p == p.(st := p.st.(files := s.p.st.files), disk := s.p.disk)
            && s.p.st.files.Keys == p.st.files.Keys
            && (forall id | id in p.st.files ::
                  s.p.st.files[id] == if id in ids then Opened(p.st.files[id]) else p.st.files[id])
            && (forall id :: id in s.p.disk.written <==> id in p.disk.written || id in ids)
            && (forall id | id in s.p.disk.written ::
                  s.p.disk.written[id] == if id in ids then [] else p.disk.written[id])
    decreases |ids|
  {
    if |ids| > 0 {
      CreateAllEffect(I.Create(p, ids[0]), ids[1..]);
    }
  }

  lemma {:induction false} SameOutstanding(a: map<int, FileInfo>, b: map<int, FileInfo>)
    requires a.Keys == b.Keys && forall id | id in a :: Left(a[id]) == Left(b[id])
    ensures Outstanding(a) == Outstanding(b)
    decreases |a|
  {
    if id :| id in a {
      TakeOut(a, id);
      TakeOut(b, id);
      SameOutstanding(a - {id}, b - {id});
    }
  }

  /** What the receiver was told is what is offered. */
  ghost predicate Matches(files: Files, table: map<int, FileInfo>) {
    table.Keys == files.Keys
    && forall id | id in table :: table[id].transferred == 0 && table[id].total == |files[id]|
  }

  lemma TakenMatches(c: Plan)
    requires HonestFiles(c.sEnv, c.rEnv)
    ensures Matches(Offered(c.sEnv), I.Taken(map[], c.names, Offer(c.sEnv).list, |Offer(c.sEnv).list|).files)
  {
    OfferTaken(c.sEnv, c.names, |c.sEnv.payload|);
    OfferUntouched(c.sEnv, |c.sEnv.payload|);
  }

  /** The sizes of what is offered add up to the announced total. */
  lemma {:induction false} MatchesTotal(c: Plan, table: map<int, FileInfo>)
    requires HonestFiles(c.sEnv, c.rEnv) && Matches(Offered(c.sEnv), table)
    ensures Outstanding(table) == Offer(c.sEnv).total
  {
    OutboundSafety.AnnouncedBooks(c.sEnv, |c.sEnv.payload|);
    OfferUntouched(c.sEnv, |c.sEnv.payload|);
    SameOutstanding(table, Offer(c.sEnv).files);
  }

  lemma EmptyDelivered(files: Files, table: map<int, FileInfo>, written: map<int, Bytes>)
    requires Matches(files, table) && written.Keys == files.Keys
    requires forall id | id in table :: table[id].handle == Some(OpenFile([], 0)) && written[id] == []
    ensures Delivered(files, table, written, Zero(files))
  {
  }

  lemma {:induction false} CreatedAtZero(files: Files, p: Peer, ids: seq<int>)
    requires p.io.None? && Matches(files, p.st.files) && InboundSafety.Lists(ids, p.st.files.Keys)
    requires p.disk.written == map[]
    ensures var s := I.CreateAll(p, ids);
            && s.r.Ok? && s.p == p.(st := p.st.(files := s.p.st.files), disk := s.p.disk)
            && Delivered(files, s.p.st.files, s.p.disk.written, Zero(files)) && Matches(files, s.p.st.files)
  {
    CreateAllEffect(p, ids);
    var s := I.CreateAll(p, ids);
    forall id
      ensures id in s.p.disk.written <==> id in files
    {
      assert id in p.st.files.Keys <==> id in ids;
    }
    EmptyDelivered(files, s.p.st.files, s.p.disk.written);
  }

  lemma {:induction false} AcceptedAtZero(c: Plan, r: Peer)
    requires HonestFiles(c.sEnv, c.rEnv) && ReceiverAsking(c, r)
    ensures var s := I.CreateAll(r, r.env.tape.order(r.st.files.Keys));
            && s.r.Ok? && s.p == r.(st := r.st.(files := s.p.st.files), disk := s.p.disk)
            && ReceiverAt(Offered(c.sEnv), s.p, Zero(Offered(c.sEnv)))
  {
    var ids := r.env.tape.order(r.st.files.Keys);
    assert InboundSafety.Lists(ids, r.st.files.Keys);
    TakenMatches(c);
    CreatedAtZero(Offered(c.sEnv), r, ids);
    MatchesTotal(c, I.CreateAll(r, ids).p.st.files);
    OfferTaken(c.sEnv, c.names, |c.sEnv.payload|);
  }

  // --- The receiver after acceptance -----------------------------------------------------------------

  const GOODBYE := OfflineFrame(Some(Disconnection))

  ghost predicate Whole(c: Plan, g: Standing) {
    g.closed == Offered(c.sEnv).Keys
  }

  function AnswerMail(c: Plan): (mail: seq<OfflineFrame>)
    ensures |mail| == 6
  {
    Posted(c.Lib(), c.script.rLetters, 3)
  }

  /** The receiver after k secure messages, with the files standing at g. */
  ghost predicate ReceiverTransferring(c: Plan, r: Peer, k: nat, g: Standing) {
    && ReceiverSecure(c, r) && r.st.clientSeq == k && ReceiverAt(Offered(c.sEnv), r, g)
    && r.st.state == (if Whole(c, g) then Finished else ReceivingFiles)
    && r.sent == AnswerMail(c) + if Whole(c, g) then [GOODBYE] else []
  }

  lemma LetterSent(c: Plan, p: Peer, frame: ShareFrame)
    requires ReceiverSecure(c, p)
    ensures var s := SendEncrypted(p, frame);
            Mailed(p, s, 2, Letter(p.env.tape.payloadIds(|p.sent|), frame)) && ReceiverSecure(c, s.p)
  {
    SendLetterWired(p, 2, frame);
  }

  lemma AnswerIsLast(c: Plan)
    requires ScriptedMail(c)
    requires c.rEnv.lib == c.sEnv.lib
    ensures |Posted(c.Lib(), c.script.rLetters, 2)| == 4
    ensures AnswerMail(c) == Posted(c.Lib(), c.script.rLetters, 2)
                             + Envelope(c.rEnv.lib, Letter(c.rEnv.tape.payloadIds(4), ResponseFrame(Accept)))
  {
  }

  lemma Accepted(c: Plan, p: Peer)
    requires ReceiverSecure(c, p) && p.sent == AnswerMail(c) && p.st.clientSeq == 6 && HonestFiles(c.sEnv, c.rEnv)
    requires ReceiverAt(Offered(c.sEnv), p, Zero(Offered(c.sEnv)))
    ensures ReceiverTransferring(c, Enter(p, ReceivingFiles, true), 6, Zero(Offered(c.sEnv)))
  {
    OfferNotEmpty(c);
  }

  /** The user accepts: every file is created empty and the acceptance goes out. */
  lemma AcceptancePosted(c: Plan, r: Peer)
    requires ScriptedMail(c)
    requires HonestChannel(c.sEnv, c.rEnv) && HonestFiles(c.sEnv, c.rEnv) && ReceiverAsking(c, r)
    ensures var s := I.AcceptTransfer(r); s.r.Ok? && ReceiverTransferring(c, s.p, 6, Zero(Offered(c.sEnv)))
  {
    AcceptedAtZero(c, r);
    var p := I.CreateAll(r, r.env.tape.order(r.st.files.Keys)).p;
    LetterSent(c, p, ResponseFrame(Accept));
    AnswerIsLast(c);
    Accepted(c, SendEncrypted(p, ResponseFrame(Accept)).p);
  }

  lemma SecureKept(c: Plan, r: Peer, q: Peer)
    requires ReceiverSecure(c, r) && FilesOnly(r, q)
    ensures ReceiverSecure(c, q)
  {
  }

  lemma WriteArrives(c: Plan, r: Peer, k: nat, id: int, body: Bytes, g: Standing)
    requires ReceiverTransferring(c, r, k, g) && !Whole(c, g) && id in r.st.files
    requires |body| > 0 && body <= Offered(c.sEnv)[id][g.pos[id]..]
    ensures var s := I.WriteChunk(r, id, body);
            s.r.Ok? && ReceiverTransferring(c, s.p, k, Advanced(g, id, |body|, false))
  {
    WriteDelivers(Offered(c.sEnv), r, g, id, body);
    SecureKept(c, r, I.WriteChunk(r, id, body).p);
  }

  lemma GoodbyeSent(c: Plan, q: Peer)
    requires ReceiverSecure(c, q)
    ensures var s := End(q, Finished);
            && s.r == Err(NotAnError) && ReceiverSecure(c, s.p) && s.p.sent == q.sent + [GOODBYE]
  {
    SendWired(Enter(q, Finished, true), 2, GOODBYE);
  }

  lemma LastClosed(c: Plan, q: Peer, k: nat, h: Standing)
    requires ReceiverSecure(c, q) && q.st.clientSeq == k && ReceiverAt(Offered(c.sEnv), q, h) && Whole(c, h)
    requires q.sent == AnswerMail(c)
    ensures var s := End(q, Finished); ReceiverTransferring(c, s.p, k, h) && s.r == Err(NotAnError)
  {
    GoodbyeSent(c, q);
  }

  lemma CloseArrives(c: Plan, r: Peer, k: nat, id: int, g: Standing)
    requires ReceiverTransferring(c, r, k, g) && !Whole(c, g) && id in r.st.files
    requires g.pos[id] == |Offered(c.sEnv)[id]| > 0
    ensures var s, h := I.CloseFile(r, id), g.(closed := g.closed + {id});
            && ReceiverTransferring(c, s.p, k, h)
            && s.r == if Whole(c, h) then Err(NotAnError) else Ok
  {
    FileClosed(Offered(c.sEnv), r, g, id);
    var q, h := r.(st := r.st.(files := r.st.files - {id})), g.(closed := g.closed + {id});
    SecureKept(c, r, q);
    if Whole(c, h) {
      LastClosed(c, q, k, h);
    }
  }

  lemma PieceHandled(files: Files, r: Peer, g: Standing, frame: V1Frame, header: PayloadHeader, chunk: PayloadChunk)
    requires ReceiverAt(files, r, g) && Piece(files, g, header, chunk) && r.io.None?
    requires frame == Payload(Some(PayloadTransfer(Some(header), Some(chunk))))
    ensures I.OnV1(r, frame)
         == if |chunk.body| > 0 then I.WriteChunk(r, header.id, chunk.body) else I.CloseFile(r, header.id)
  {
    PieceArrives(files, r, g, header, chunk);
  }

  lemma PieceReceived(c: Plan, r: Peer, k: nat, g: Standing, header: PayloadHeader, chunk: PayloadChunk)
    requires ReceiverTransferring(c, r, k, g) && !Whole(c, g) && Piece(Offered(c.sEnv), g, header, chunk)
    ensures var h := AfterPiece(g, header, chunk);
            var s := if |chunk.body| > 0 then I.WriteChunk(r, header.id, chunk.body) else I.CloseFile(r, header.id);
            ReceiverTransferring(c, s.p, k, h) && s.r == if Whole(c, h) then Err(NotAnError) else Ok
  {
    assert header.id in r.st.files;
    if |chunk.body| > 0 {
      WriteArrives(c, r, k, header.id, chunk.body, g);
    } else {
      CloseArrives(c, r, k, header.id, g);
    }
  }

  /** A frame that plays reaches the receiver. */
  lemma FrameArrives(c: Plan, r: Peer, k: nat, frame: OfflineFrame, g: Standing)
    requires ReceiverTransferring(c, r, k, g) && !Whole(c, g) && Apply(Offered(c.sEnv), frame, g).Some?
    requires frame.v1.Some?
    ensures var s, h := I.OnV1(r, frame.v1.value), Apply(Offered(c.sEnv), frame, g).value;
            && ReceiverTransferring(c, s.p, k, h)
            && s.r == if Whole(c, h) then Err(NotAnError) else Ok
  {
    if frame != GOODBYE {
      PieceOfFrame(Offered(c.sEnv), frame, g);
      var header, chunk := frame.v1.value.transfer.value.header.value, frame.v1.value.transfer.value.chunk.value;
      PieceHandled(Offered(c.sEnv), r, g, frame.v1.value, header, chunk);
      PieceReceived(c, r, k, g, header, chunk);
    }
  }

  /** The receiver reads the next frame, and its files stand where the frame takes them. */
  lemma FrameReadOn(c: Plan, r: Peer, k: nat, wire: Bytes, frame: OfflineFrame, g: Standing)
    requires ReceiverTransferring(c, r, k, g) && !Whole(c, g) && Apply(Offered(c.sEnv), frame, g).Some?
    requires frame.v1.Some? && ReceiveSecure(r, wire) == Incoming(Counted(r), Ok, frame.v1.value)
    ensures var t, h := I.OnSecure(r, wire), Apply(Offered(c.sEnv), frame, g).value;
            && ReceiverTransferring(c, t.p, k + 1, h)
            && t.r == if Whole(c, h) then Err(NotAnError) else Ok
  {
    assert ReceiverTransferring(c, Counted(r), k + 1, g);
    FrameArrives(c, Counted(r), k + 1, frame, g);
  }

  // --- The sender from consent on --------------------------------------------------------------------

  function OfferMail(c: Plan): (mail: seq<OfflineFrame>)
    ensures |mail| == 6
  {
    Posted(c.Lib(), c.script.sLetters, 3)
  }

  /** The sender in its loops, with the ids still to send and the files standing at g. */
  ghost predicate SenderSending(c: Plan, s: Peer, job: seq<int>, g: Standing) {
    && SenderSecure(c, s) && s.st.state.SendingFiles? && s.st.clientSeq == 6
    && OfferMail(c) <= s.sent && SenderAt(Offered(c.sEnv), s, job, g)
  }

  /** The sender after its loops and l secure messages. */
  ghost predicate SenderDone(c: Plan, s: Peer, l: nat, g: Standing) {
    && SenderSecure(c, s) && s.st.state.Finished? && s.st.clientSeq == l >= 6
    && OfferMail(c) <= s.sent
    && SenderAt(Offered(c.sEnv), s, [], g)
  }

  lemma SendingFromZero(c: Plan, s: Peer)
    requires HonestFiles(c.sEnv, c.rEnv) && s.env == c.sEnv && s.st.files == Offer(c.sEnv).files
    ensures SenderAt(Offered(c.sEnv), s, s.env.tape.order(s.st.files.Keys), Zero(Offered(c.sEnv)))
  {
    OfferUntouched(c.sEnv, |c.sEnv.payload|);
    assert InboundSafety.Lists(s.env.tape.order(s.st.files.Keys), s.st.files.Keys);
  }

  lemma ConsentOpened(s: Peer, wire: Bytes, id: int, body: Bytes)
    requires s.st.state.SentIntroduction? && |wire| <= SANE_FRAME_LENGTH && |body| <= SANE_FRAME_LENGTH
    requires ReceiveSecure(s, wire) == Incoming(Counted(s), Ok, LastChunk(id, body).v1.value)
    requires id in s.st.buffers && s.st.buffers[id] == body
    requires s.env.lib.decShare(body) == Some(ResponseFrame(Accept))
    ensures O.Consented(s, wire) == Some(Counted(s))
  {
    LastChunkCompletes(Counted(s), id, body);
  }

  /** The acceptance reaches the sender: it goes into its loops. */
  lemma ConsentRead(c: Plan, s: Peer, r: Peer)
    requires ScriptedMail(c)
    requires HonestChannel(c.sEnv, c.rEnv) && HonestMail(c) && ReceiverSecure(c, r) && SenderPairing(c, s, 5)
    requires HasPosted(r, c.script.rLetters, 3) && |r.out[7]| <= SANE_FRAME_LENGTH
    ensures O.Consented(s, r.out[7]) == Some(Counted(s))
  {
    var letter := c.script.rLetters[2];
    LetterAt(c.Lib(), c.script.rLetters, r.sent, 2);
    NextToSender(c, s, r, 5);
    ConsentOpened(s, r.out[7], letter.id, c.Lib().encShare(letter.frame));
  }

  lemma SendingBegins(c: Plan, s: Peer)
    requires HonestFiles(c.sEnv, c.rEnv) && SenderPairing(c, s, 5)
    ensures var b := O.BeginSending(Counted(s));
            SenderSending(c, b, b.env.tape.order(b.st.files.Keys), Zero(Offered(c.sEnv)))
  {
    SendingFromZero(c, O.BeginSending(Counted(s)));
  }

  /** One turn: the sender sends what plays next. */
  lemma TurnSends(c: Plan, s: Peer, job: seq<int>, g: Standing) returns (frames: seq<OfflineFrame>, h: Standing)
    requires SenderSending(c, s, job, g) && |job| > 0
    ensures O.FilesOk(s.st.files)
    ensures var t := O.Turn(s, job);
            && t.r.Ok? && SenderSending(c, t.p, t.job, h) && Sends(s, t.p, frames)
            && Play(Offered(c.sEnv), frames, g) == Some(h)
  {
    frames, h := TurnPlays(Offered(c.sEnv), s, job, g);
    assert s.out[..4] == O.Turn(s, job).p.out[..4];
  }

  /** Out of its loops the sender says goodbye. */
  lemma {:induction false} SendingEnds(c: Plan, s: Peer, g: Standing)
    requires SenderSending(c, s, [], g)
    ensures var t := O.FinishSending(s);
            && t.r.Ok? && SenderDone(c, t.p, 6, g) && t.p.sent == s.sent + [GOODBYE] && s.out <= t.p.out
            && Play(Offered(c.sEnv), [GOODBYE], g) == Some(g)
  {
    var q := Enter(s, Finished, true);
    SendsOne(q, GOODBYE);
    assert q.out[..4] == O.FinishSending(s).p.out[..4];
    PlayOne(Offered(c.sEnv), GOODBYE, g);
  }

  /** What the receiver still sends is its own goodbye. */
  lemma GoodbyeRead(c: Plan, s: Peer, r: Peer, l: nat, g: Standing)
    requires HonestChannel(c.sEnv, c.rEnv) && SenderDone(c, s, l, g) && ReceiverSecure(c, r)
    requires l < |r.sent| && r.sent[l] == GOODBYE
    ensures O.FilesOk(s.st.files) && ReceiveSecure(s, r.out[2 + l]) == Incoming(Counted(s), Ok, Disconnection)
  {
    SenderFilesOk(Offered(c.sEnv), s, [], g);
    NextToSender(c, s, r, l);
  }
}
