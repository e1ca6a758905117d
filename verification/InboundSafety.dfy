/** What the receiver keeps against any peer: any bytes on the socket, any I/O failure, any front end that
    acts only on a session it has heard of and accepts only while its consent is asked for. */
module InboundSafety {
  import opened Wrappers
  import opened Messages
  import opened Libraries
  import opened SecureChannel
  import opened Peers
  import opened Inbound
  import opened Ledgers
  import Destination

  // --- The invariant -----------------------------------------------------------------------------

  predicate Running(s: State) {
    s.Initial? || s.ReceivedConnectionRequest? || s.SentUkeyServerInit? || s.ReceivedUkeyClientFinish?
    || s.SentConnectionResponse? || s.SentPairedKeyResult? || s.ReceivedPairedKeyResult?
    || s.WaitingForUserConsent? || s.ReceivingFiles?
  }

  /** Which optional fields are there: handshake data exactly from SentUkeyServerInit on, session keys
      exactly from ReceivedUkeyClientFinish on. */
  ghost predicate Fields(p: Peer) {
    var rank, hs := Rank(p.st.state), p.st.hs;
    && (hs.commitment.Some? <==> rank >= 2)
    && (hs.privateKey.Some? <==> rank >= 2)
    && (hs.serverInit.Some? <==> rank >= 2)
    && (hs.clientInit.Some? <==> rank >= 2)
    && (p.keys.Some? <==> rank >= 3)
    && (p.st.pin.Some? <==> rank >= 3)
  }

  /** Nothing is announced and no file is known before the introduction. */
  ghost predicate Quiet(p: Peer) {
    && (Rank(p.st.state) < 7 ==> p.told == [] && p.st.files == map[] && p.st.meta.None? && p.disk.written == map[])
    && (forall m | m in p.told :: m.id == p.env.id)
  }

  ghost predicate FileKept(id: int, f: FileInfo, written: map<int, Bytes>) {
    match f.handle
    case None => f.transferred == 0
    case Some(h) =>
      && id in written && written[id] == h.data && |h.data| == f.transferred
      && (f.transferred == 0 || f.transferred <= f.total)
  }

  /** Every open file holds exactly the bytes counted for it and never more than announced. */
  ghost predicate Contents(p: Peer) {
    && (forall id | id in p.st.files :: FileKept(id, p.st.files[id], p.disk.written))
    && (p.st.state.ReceivingFiles? ==> forall id | id in p.st.files :: p.st.files[id].handle.Some?)
  }

  /** The counters: the last notification lags by less than 256 KiB and is never ahead, and the progress
      broadcasts made so far are covered by acknowledged bytes. */
  ghost predicate Books(p: Peer) {
    match p.st.meta
    case None => p.st.files == map[] && p.st.lastNotified == 0 && ProgressCount(p.told) == 0
    case Some(m) =>
      && 0 <= p.st.lastNotified
      && 0 <= m.ackBytes - p.st.lastNotified < NOTIFY_STEP
      && ProgressCount(p.told) * NOTIFY_STEP <= p.st.lastNotified
      && (p.st.state.WaitingForUserConsent? ==> m.ackBytes == 0)
  }

  ghost predicate Core(p: Peer) {
    Running(p.st.state) && Fields(p) && Quiet(p) && Contents(p) && Books(p)
  }

  /** No file is open while the user is being asked. */
  ghost predicate Unopened(p: Peer) {
    p.st.state.WaitingForUserConsent? ==>
      p.disk.written == map[] && forall id | id in p.st.files :: p.st.files[id].handle.None?
  }

  ghost predicate Inv(p: Peer) {
    Core(p) && Unopened(p)
  }

  /** How a run may end. */
  ghost predicate Closing(s: Step)
    requires s.r.Err?
  {
    && Books(s.p)
    && (forall m | m in s.p.told :: m.id == s.p.env.id)
    && (s.r.error.NotAnError? ==> |s.p.told| > 0 && Terminal(s.p.told[|s.p.told| - 1].state))
    && (s.p.st.state.Finished? ==> |s.p.told| > 0 && s.p.told[|s.p.told| - 1].state.Finished?)
    && (s.p.st.state.Initial? ==> s.p.told == [])
    && (s.r.error.Panic? ==> Abortable(s.p.st.state, s.r.error.abort))
  }

  /** The only aborts: a public key off the curve, a byte chunk for a file before consent, and lengths
      that overflow. No missing key, commitment or transcript is ever unwrapped. */
  predicate Abortable(s: State, a: Abort) {
    match a
    case PointOffCurve => s.SentUkeyServerInit?
    case NoOpenFile => s.WaitingForUserConsent?
    case Overflow => Rank(s) >= 4
    case _ => false
  }

  /** Acknowledged and outstanding bytes together. */
  ghost function Outlay(p: Peer): int {
    Acked(p.st.meta) + Outstanding(p.st.files)
  }

  function Total(p: Peer): int {
    match p.st.meta
    case None => 0
    case Some(m) => m.totalBytes
  }

  /** Once files have been announced, bytes only move from outstanding to acknowledged or are given up. */
  ghost predicate Spends(before: Peer, after: Peer) {
    Outlay(after) <= Outlay(before) && Total(after) == Total(before)
  }

  ghost predicate Safe(before: Peer, s: Step) {
    && s.p.env == before.env
    && Rank(before.st.state) <= Rank(s.p.st.state)
    && (Rank(before.st.state) >= 7 ==> Spends(before, s.p))
    && (s.r.Ok? ==> Inv(s.p))
    && (s.r.Err? ==> Closing(s))
  }

  /** A front end that acts on sessions it has heard of, and accepts only when asked. */
  predicate Sensible(p: Peer, e: Event) {
    match e
    case Front(id, action) => id == p.env.id ==>
      p.told != [] && (action.AcceptTransfer? ==> p.st.state.WaitingForUserConsent?)
    case _ => true
  }

  lemma StartInv(env: Env, io: Option<nat>, names: set<string>)
    ensures Inv(Start(env, io, names))
  {
  }

  // --- Steps common to several branches ----------------------------------------------------------

  /** q differs from p only in counters, buffers and traffic, which the invariant does not mention. */
  ghost predicate Unmoved(p: Peer, q: Peer) {
    q == p.(st := p.st.(serverSeq := q.st.serverSeq, clientSeq := q.st.clientSeq, buffers := q.st.buffers),
            io := q.io, out := q.out, sent := q.sent)
  }

  lemma UnmovedInv(p: Peer, q: Peer)
    requires Inv(p) && Unmoved(p, q)
    ensures Inv(q)
  {
  }

  /** What happens after traffic alone happens to the original state. */
  lemma Onward(p: Peer, q: Peer, s: Step)
    requires Unmoved(p, q) && Safe(q, s)
    ensures Safe(p, s)
  {
  }

  /** An error with nothing but traffic behind it. */
  lemma ErrorSafe(p: Peer, q: Peer, e: Failure)
    requires Inv(p) && Unmoved(p, q) && !e.NotAnError?
    requires e.Panic? ==> Abortable(p.st.state, e.abort)
    ensures Safe(p, Step(q, Err(e)))
  {
  }

  /** A silent move forward between the key exchange and the introduction. */
  lemma EnterInv(p: Peer, state: State)
    requires Inv(p) && 3 <= Rank(p.st.state) <= Rank(state) <= 6 && Running(state)
    ensures Inv(Enter(p, state, false))
  {
  }

  lemma FailSafe(p: Peer, reason: Reason)
    requires Inv(p)
    ensures Safe(p, Fail(p, reason))
  {
  }

  ghost predicate OwnId(p: Peer) {
    forall m | m in p.told :: m.id == p.env.id
  }

  /** A closing broadcast m takes p to q: it is not a progress broadcast and it is the last one. */
  lemma EndBooks(p: Peer, q: Peer, m: ChannelMessage)
    requires Books(p) && Running(p.st.state) && OwnId(p) && q.env == p.env
    requires Terminal(q.st.state) && Terminal(m.state) && m.id == p.env.id
    requires q.st.meta == p.st.meta && q.st.files == p.st.files && q.st.lastNotified == p.st.lastNotified
    requires q.told == p.told + [m]
    ensures Books(q) && OwnId(q) && |q.told| > 0 && q.told[|q.told| - 1] == m
  {
    CountOne(p.told, m);
  }

  /** A session that ends with a closing broadcast ends as it should. */
  lemma ClosedSafe(p: Peer, s: Step, m: ChannelMessage)
    requires Books(p) && Running(p.st.state) && OwnId(p) && s.p.env == p.env
    requires Terminal(s.p.st.state) && m.state == s.p.st.state && m.id == p.env.id
    requires s.p.st.meta == p.st.meta && s.p.st.files == p.st.files && s.p.st.lastNotified == p.st.lastNotified
    requires s.p.told == p.told + [m]
    requires s.r == Err(NotAnError) || s.r == Err(Io)
    ensures Safe(p, s)
  {
    EndBooks(p, s.p, m);
  }

  lemma EndSafe(p: Peer, state: State)
    requires Books(p) && Running(p.st.state) && p.keys.Some? && Terminal(state) && OwnId(p)
    ensures Safe(p, End(p, state))
  {
    ClosedSafe(p, End(p, state), ChannelMessage(p.env.id, state, p.st.meta));
  }

  lemma SendSafe(p: Peer, frame: OfflineFrame)
    requires Inv(p) && p.keys.Some?
    ensures Safe(p, EncryptAndSend(p, frame))
  {
  }

  lemma SendEncryptedSafe(p: Peer, frame: ShareFrame)
    requires Inv(p) && p.keys.Some?
    ensures Safe(p, SendEncrypted(p, frame))
  {
  }

  // --- Handshake -----------------------------------------------------------------------------------

  lemma ConnectionRequestSafe(p: Peer, wire: Bytes)
    requires Inv(p) && p.st.state.Initial?
    ensures Safe(p, OnConnectionRequest(p, wire))
  {
  }

  lemma ClientInitSafe(p: Peer, wire: Bytes)
    requires Inv(p) && p.st.state.ReceivedConnectionRequest?
    ensures Safe(p, OnClientInit(p, wire))
  {
  }

  lemma ClientFinishSafe(p: Peer, wire: Bytes)
    requires Inv(p) && p.st.state.SentUkeyServerInit?
    ensures Safe(p, OnClientFinish(p, wire))
  {
  }

  /** Send a sharing frame, then move on. */
  function SendAndEnter(p: Peer, frame: ShareFrame, state: State): Step {
    var s := SendEncrypted(p, frame);
    if s.r.Err? then s else Step(Enter(s.p, state, false), Ok)
  }

  lemma SendThenEnter(p: Peer, frame: ShareFrame, state: State)
    requires Inv(p) && 3 <= Rank(p.st.state) <= Rank(state) <= 6 && Running(state)
    ensures Safe(p, SendAndEnter(p, frame, state))
  {
    var s := SendEncrypted(p, frame);
    UnmovedInv(p, s.p);
    SendEncryptedSafe(p, frame);
    EnterInv(s.p, state);
  }

  /** What a connection response leads to: a refusal, or the own response and the first sharing frame. */
  function Respond(p: Peer): Step {
    var s := SendOffline(p, ACCEPT_CONNECTION);
    if s.r.Err? then s else SendAndEnter(s.p, PairedKeyEncryptionFrame(), SentConnectionResponse)
  }

  lemma RespondSafe(p: Peer)
    requires Inv(p) && p.st.state.ReceivedUkeyClientFinish?
    ensures Safe(p, Respond(p))
  {
    var s := SendOffline(p, ACCEPT_CONNECTION);
    UnmovedInv(p, s.p);
    if s.r.Err? {
      ErrorSafe(p, s.p, Io);
    } else {
      SendThenEnter(s.p, PairedKeyEncryptionFrame(), SentConnectionResponse);
      Onward(p, s.p, SendAndEnter(s.p, PairedKeyEncryptionFrame(), SentConnectionResponse));
    }
  }

  lemma ResponseCases(p: Peer, wire: Bytes)
    ensures var s := OnConnectionResponse(p, wire);
            s == Respond(p) || s == Fail(p, Undecodable) || s == Fail(p, MissingField) || s == Fail(p, UnexpectedType)
  {
  }

  lemma ConnectionResponseSafe(p: Peer, wire: Bytes)
    requires Inv(p) && p.st.state.ReceivedUkeyClientFinish?
    ensures Safe(p, OnConnectionResponse(p, wire))
  {
    ResponseCases(p, wire);
    RespondSafe(p);
    FailSafe(p, Undecodable);
    FailSafe(p, MissingField);
    FailSafe(p, UnexpectedType);
  }

  // --- Introduction and consent --------------------------------------------------------------------

  ghost predicate Blank(files: map<int, FileInfo>) {
    forall id | id in files :: files[id].handle.None? && files[id].transferred == 0
  }

  /** Nothing the intake collects is open or counted yet. */
  lemma {:induction false} IntakeBlank(existing: set<string>, list: seq<FileMetadata>, k: nat)
    requires k <= |list|
    ensures Blank(Taken(map[], existing, list, k).files)
  {
    if k > 0 {
      IntakeBlank(existing, list, k - 1);
      var taken, next := Taken(map[], existing, list, k - 1).files, Taken(map[], existing, list, k).files;
      forall id | id in next
        ensures next[id].handle.None? && next[id].transferred == 0
      {
        if id != list[k - 1].payloadId {
          assert id in taken;
        }
      }
    }
  }

  lemma WaitingInv(p: Peer)
    requires Inv(p) && p.st.state.ReceivedPairedKeyResult?
    ensures Inv(Enter(p, WaitingForUserConsent, false))
  {
  }

  /** Asking for consent with a table of unopened files whose sizes the total covers. */
  lemma AskedInv(p: Peer, i: Intake, meta: TransferMetadata)
    requires Inv(p) && p.st.state.ReceivedPairedKeyResult?
    requires meta.ackBytes == 0
    requires Blank(i.files)
    ensures Inv(Update(p, p.st.(state := WaitingForUserConsent, files := i.files, meta := Some(meta)), true))
  {
    CountOne(p.told, ChannelMessage(p.env.id, WaitingForUserConsent, Some(meta)));
  }

  lemma AskForFilesSafe(p: Peer, list: seq<FileMetadata>)
    requires Inv(p) && p.st.state.ReceivedPairedKeyResult?
    ensures Safe(p, AskForFiles(Enter(p, WaitingForUserConsent, false), list))
  {
    var q := Enter(p, WaitingForUserConsent, false);
    var i := Taken(map[], p.disk.names, list, |list|);
    IntakeBlank(p.disk.names, list, |list|);
    assert q.st.files == map[];
    AskedInv(p, i, TransferMetadata(p.st.pin, i.names, i.total, 0, None));
  }

  lemma AskForTextSafe(p: Peer, id: int)
    requires Inv(p) && p.st.state.ReceivedPairedKeyResult?
    ensures Safe(p, AskForText(Enter(p, WaitingForUserConsent, false), id))
  {
    var s := AskForText(Enter(p, WaitingForUserConsent, false), id);
    var m := ChannelMessage(p.env.id, WaitingForUserConsent, s.p.st.meta);
    CountOne(p.told, m);
    assert s.p.told == p.told + [m];
  }

  lemma DeclineSafe(p: Peer)
    requires Inv(p) && p.st.state.ReceivedPairedKeyResult?
    ensures Safe(p, Inbound.RejectTransfer(Enter(p, WaitingForUserConsent, false), UnsupportedAttachmentType))
  {
    WaitingInv(p);
    SendEncryptedSafe(Enter(p, WaitingForUserConsent, false), ResponseFrame(UnsupportedAttachmentType));
  }

  lemma IntroductionSafe(p: Peer, v1: ShareV1)
    requires Inv(p) && p.st.state.ReceivedPairedKeyResult?
    ensures Safe(p, ProcessIntroduction(p, v1))
  {
    if v1.introduction.None? {
      FailSafe(p, MissingField);
    } else {
      var intro := v1.introduction.value;
      if |intro.files| > 0 && |intro.texts| == 0 {
        AskForFilesSafe(p, intro.files);
      } else if |intro.texts| == 1 && !intro.texts[0].ttype.UnknownText? {
        AskForTextSafe(p, intro.texts[0].payloadId);
      } else if |intro.texts| != 1 && |intro.wifis| == 1 {
        AskForTextSafe(p, intro.wifis[0]);
      } else {
        DeclineSafe(p);
      }
    }
  }

  // Opening files changes no counter and no count of outstanding bytes.
  ghost predicate Opening(p: Peer, q: Peer) {
    && q == p.(st := p.st.(files := q.st.files), io := q.io, disk := q.disk)
    && q.st.files.Keys == p.st.files.Keys
    && Outstanding(q.st.files) == Outstanding(p.st.files)
  }

  lemma CreateOpens(p: Peer, id: int)
    requires Core(p) && p.st.state.WaitingForUserConsent? && id in p.st.files
    requires p.st.files[id].transferred == 0
    ensures Core(Create(p, id)) && Opening(p, Create(p, id))
  {
    var q := Create(p, id);
    PutIn(p.st.files, id, q.st.files[id]);
    assert q.st.files.Keys == p.st.files.Keys;
  }

  ghost predicate AllEmpty(files: map<int, FileInfo>) {
    forall id | id in files :: files[id].transferred == 0
  }

  ghost predicate StillOpen(before: map<int, FileInfo>, after: map<int, FileInfo>) {
    forall id | id in before && before[id].handle.Some? :: id in after && after[id].handle.Some?
  }

  lemma CoreSpend(p: Peer)
    requires Core(p)
    ensures Core(Spend(p)) && Opening(p, Spend(p))
  {
  }

  lemma {:induction false} CreateAllOpens(p: Peer, ids: seq<int>)
    requires Core(p) && p.st.state.WaitingForUserConsent? && AllEmpty(p.st.files)
    requires forall i | 0 <= i < |ids| :: ids[i] in p.st.files
    ensures var s := CreateAll(p, ids);
            && Core(s.p) && Opening(p, s.p)
            && (s.r.Ok? || s.r == Err(Io))
            && StillOpen(p.st.files, s.p.st.files)
            && (s.r.Ok? ==> forall i | 0 <= i < |ids| :: ids[i] in s.p.st.files && s.p.st.files[ids[i]].handle.Some?)
    decreases |ids|
  {
    if |ids| > 0 {
      if !Broken(p) {
        CoreSpend(p);
        CreateOpens(Spend(p), ids[0]);
        var q := Create(Spend(p), ids[0]);
        assert StillOpen(p.st.files, q.st.files);
        CreateAllOpens(q, ids[1..]);
        assert forall i | 1 <= i < |ids| :: ids[i] == ids[1..][i - 1];
      }
    }
  }

  ghost predicate Lists(order: seq<int>, keys: set<int>) {
    (forall i | 0 <= i < |order| :: order[i] in keys) && (forall id | id in keys :: id in order)
  }

  /** The table of keys is listed completely, in some order. */
  ghost predicate LawfulTape(t: Tape) {
    forall keys :: Lists(t.order(keys), keys)
  }

  /** A broadcast with nothing acknowledged yet, or outside a transfer, is not a progress broadcast. */
  lemma AcceptBooks(p: Peer)
    requires Core(p) && p.st.state.WaitingForUserConsent?
    requires forall id | id in p.st.files :: p.st.files[id].handle.Some?
    ensures Inv(Enter(p, ReceivingFiles, true))
  {
    var m := ChannelMessage(p.env.id, ReceivingFiles, p.st.meta);
    CountOne(p.told, m);
    assert Enter(p, ReceivingFiles, true).told == p.told + [m];
  }

  lemma UnmovedCore(p: Peer, q: Peer)
    requires Core(p) && Unmoved(p, q)
    ensures Core(q)
  {
  }

  ghost predicate AllOpen(files: map<int, FileInfo>) {
    forall id | id in files :: files[id].handle.Some?
  }

  /** Creating the files opens them all, or stops at an I/O error. */
  ghost predicate Opens(p: Peer, s: Step) {
    && Core(s.p) && Opening(p, s.p) && (s.r.Ok? || s.r == Err(Io))
    && (s.r.Ok? ==> AllOpen(s.p.st.files))
  }

  lemma {:induction false} FilesOpen(p: Peer)
    requires Core(p) && p.st.state.WaitingForUserConsent? && AllEmpty(p.st.files) && LawfulTape(p.env.tape)
    ensures Opens(p, CreateAll(p, p.env.tape.order(p.st.files.Keys)))
  {
    var ids := p.env.tape.order(p.st.files.Keys);
    assert Lists(ids, p.st.files.Keys);
    CreateAllOpens(p, ids);
    var s := CreateAll(p, ids);
    if s.r.Ok? {
      forall id | id in s.p.st.files
        ensures s.p.st.files[id].handle.Some?
      {
        assert id in p.st.files.Keys && id in ids;
      }
    }
  }

  lemma OpenFails(p: Peer, s: Step)
    requires Inv(p) && p.st.state.WaitingForUserConsent? && Opens(p, s) && s.r.Err?
    ensures Safe(p, s)
  {
  }

  lemma AnswerFails(p: Peer, q: Peer, t: Peer)
    requires p.st.state.WaitingForUserConsent? && Core(q) && Opening(p, q) && Unmoved(q, t)
    ensures Safe(p, Step(t, Err(Io)))
  {
    UnmovedCore(q, t);
  }

  /** The answer went out with every file open. */
  lemma AnswerGoes(p: Peer, q: Peer, t: Peer)
    requires p.st.state.WaitingForUserConsent? && Core(q) && Opening(p, q) && AllOpen(q.st.files) && Unmoved(q, t)
    ensures Safe(p, Step(Enter(t, ReceivingFiles, true), Ok))
  {
    UnmovedCore(q, t);
    AcceptBooks(t);
  }

  lemma AnswerSafe(p: Peer, s: Step, t: Step)
    requires p.st.state.WaitingForUserConsent? && Opens(p, s) && s.r.Ok?
    requires Unmoved(s.p, t.p) && (t.r.Ok? || t.r == Err(Io))
    ensures Safe(p, if t.r.Err? then t else Step(Enter(t.p, ReceivingFiles, true), Ok))
  {
    if t.r.Err? {
      AnswerFails(p, s.p, t.p);
    } else {
      AnswerGoes(p, s.p, t.p);
    }
  }

  lemma AnswerMoves(p: Peer)
    requires p.keys.Some?
    ensures var t := SendEncrypted(p, ResponseFrame(Accept)); Unmoved(p, t.p) && (t.r.Ok? || t.r == Err(Io))
  {
  }

  lemma AcceptSafe(p: Peer)
    requires Inv(p) && p.st.state.WaitingForUserConsent? && LawfulTape(p.env.tape)
    ensures Safe(p, Inbound.AcceptTransfer(p))
  {
    FilesOpen(p);
    var s := CreateAll(p, p.env.tape.order(p.st.files.Keys));
    if s.r.Err? {
      OpenFails(p, s);
    } else {
      AnswerMoves(s.p);
      AnswerSafe(p, s, SendEncrypted(s.p, ResponseFrame(Accept)));
    }
  }

  lemma RejectedSends(p: Peer)
    requires p.keys.Some?
    ensures var s := OnAction(p, ChannelAction.RejectTransfer);
            var m := ChannelMessage(p.env.id, Rejected, p.st.meta);
            && s.p == p.(st := p.st.(state := Rejected, serverSeq := s.p.st.serverSeq), io := s.p.io, out := s.p.out,
                         sent := s.p.sent, told := p.told + [m])
            && (s.r == Err(NotAnError) || s.r == Err(Io))
  {
  }

  lemma RejectSafe(p: Peer)
    requires Inv(p) && p.keys.Some?
    ensures Safe(p, OnAction(p, ChannelAction.RejectTransfer))
  {
    RejectedSends(p);
    ClosedSafe(p, OnAction(p, ChannelAction.RejectTransfer), ChannelMessage(p.env.id, Rejected, p.st.meta));
  }

  // --- File chunks -----------------------------------------------------------------------------------

  lemma {:induction false} ProgressBooks(p: Peer, files: map<int, FileInfo>, n: nat)
    requires Books(p) && p.st.meta.Some? && p.st.state.ReceivingFiles? && n > 0
    requires Outstanding(files) + n == Outstanding(p.st.files)
    ensures Books(Progress(p, files, n))
  {
    var q := Progress(p, files, n);
    CountOne(p.told, ChannelMessage(p.env.id, p.st.state, q.st.meta));
  }

  lemma WriteContents(p: Peer, id: int, body: Bytes)
    requires Contents(p) && id in p.st.files && p.st.files[id].handle.Some?
    requires p.st.files[id].transferred + |body| <= p.st.files[id].total
    ensures var q := Inbound.Appended(p, id, body);
            Contents(q.(st := q.st.(files := p.st.files[id := Written(p.st.files[id], body)])))
  {
  }

  lemma WriteBooks(p: Peer, id: int, body: Bytes)
    requires Inv(p) && id in p.st.files && |body| > 0 && p.st.files[id].handle.Some?
    requires p.st.files[id].transferred + |body| <= p.st.files[id].total
    ensures Outstanding(p.st.files[id := Written(p.st.files[id], body)]) + |body| == Outstanding(p.st.files)
  {
    TakeOut(p.st.files, id);
    PutIn(p.st.files, id, Written(p.st.files[id], body));
  }

  lemma {:induction false} ProgressInv(p: Peer, files: map<int, FileInfo>, n: nat)
    requires Fields(p) && Quiet(p) && Books(p) && p.st.state.ReceivingFiles? && p.st.meta.Some? && n > 0
    requires Outstanding(files) + n == Outstanding(p.st.files)
    requires Contents(p.(st := p.st.(files := files)))
    ensures Inv(Progress(p, files, n)) && Progress(p, files, n).env == p.env
  {
    ProgressBooks(p, files, n);
  }

  lemma WriteInv(p: Peer, id: int, body: Bytes)
    requires Inv(p) && id in p.st.files && |body| > 0 && p.st.files[id].handle.Some?
    requires p.st.files[id].transferred + |body| <= p.st.files[id].total
    ensures var q := Progress(Inbound.Appended(p, id, body), p.st.files[id := Written(p.st.files[id], body)], |body|);
            Inv(q) && q.env == p.env
  {
    WriteContents(p, id, body);
    WriteBooks(p, id, body);
    ProgressInv(Inbound.Appended(p, id, body), p.st.files[id := Written(p.st.files[id], body)], |body|);
  }

  lemma {:induction false} WriteSpends(p: Peer, q: Peer, files: map<int, FileInfo>, n: nat)
    requires Inv(p) && q.st.meta == p.st.meta && p.st.meta.Some? && Outstanding(files) + n == Outstanding(p.st.files)
    ensures Spends(p, Progress(q, files, n))
  {
  }

  lemma WriteSafe(p: Peer, id: int, body: Bytes)
    requires Inv(p) && id in p.st.files && |body| > 0
    requires p.st.files[id].transferred + |body| <= p.st.files[id].total
    ensures Safe(p, WriteChunk(p, id, body))
  {
    if p.st.files[id].handle.None? {
      ErrorSafe(p, p, Panic(NoOpenFile));
    } else if Broken(p) {
      ErrorSafe(p, p, Io);
    } else {
      WriteInv(p, id, body);
      WriteBooks(p, id, body);
      WriteSpends(p, Inbound.Appended(p, id, body), p.st.files[id := Written(p.st.files[id], body)], |body|);
    }
  }

  lemma CloseSafe(p: Peer, id: int)
    requires Inv(p) && id in p.st.files
    ensures Safe(p, CloseFile(p, id))
  {
    TakeOut(p.st.files, id);
    var q := p.(st := p.st.(files := p.st.files - {id}));
    assert Inv(q);
    if q.st.files == map[] {
      EndSafe(q, Finished);
    }
  }

  lemma FileChunkSafe(p: Peer, header: PayloadHeader, chunk: PayloadChunk)
    requires Inv(p)
    ensures Safe(p, OnFileChunk(p, header, chunk))
  {
    var id := header.id;
    if id in p.st.files {
      CloseSafe(p, id);
      if |chunk.body| > 0 && p.st.files[id].transferred + |chunk.body| <= p.st.files[id].total {
        WriteSafe(p, id, chunk.body);
      }
    }
  }

  // --- Byte payloads ---------------------------------------------------------------------------------

  lemma TextSafe(p: Peer, data: Bytes)
    requires Inv(p) && p.keys.Some?
    ensures Safe(p, OnText(p, data))
  {
    var text := Cut(data);
    var meta := match p.st.meta case None => None case Some(m) => Some(m.(text := Some(text)));
    var q := p.(st := p.st.(meta := meta));
    EndSafe(q, Finished);
  }

  lemma SetupV1Safe(p: Peer, v1: ShareV1)
    requires Inv(p) && p.keys.Some? && Rank(p.st.state) >= 4
    requires !v1.stype.CancelType?
    ensures Safe(p, OnSetupV1(p, v1))
  {
    match p.st.state {
      case SentConnectionResponse =>
        FailSafe(p, MissingField);
        SendThenEnter(p, PairedKeyResultFrame(), SentPairedKeyResult);
      case SentPairedKeyResult =>
        FailSafe(p, MissingField);
        EnterInv(p, ReceivedPairedKeyResult);
      case ReceivedPairedKeyResult =>
        IntroductionSafe(p, v1);
      case _ =>
    }
  }

  lemma SetupSafe(p: Peer, frame: ShareFrame)
    requires Inv(p) && p.keys.Some? && Rank(p.st.state) >= 4
    ensures Safe(p, OnSetup(p, frame))
  {
    if frame.v1.None? {
      FailSafe(p, MissingField);
    } else if frame.v1.value.stype.CancelType? {
      EndSafe(p, Cancelled);
    } else {
      SetupV1Safe(p, frame.v1.value);
    }
  }

  lemma CompleteSafe(p: Peer, id: int, data: Bytes)
    requires Inv(p) && p.keys.Some? && Rank(p.st.state) >= 4
    ensures Safe(p, OnComplete(p, id, data))
  {
    if p.st.text == Some(id) {
      TextSafe(p, data);
    } else if p.env.lib.decShare(data).None? {
      FailSafe(p, Undecodable);
    } else {
      SetupSafe(p, p.env.lib.decShare(data).value);
    }
  }

  lemma BytesSafe(p: Peer, header: PayloadHeader, chunk: PayloadChunk)
    requires Inv(p) && p.keys.Some? && Rank(p.st.state) >= 4
    ensures Safe(p, OnBytes(p, header, chunk))
  {
    var g := Gather(p, header, chunk);
    UnmovedInv(p, g.p);
    if g.r.Err? {
      ErrorSafe(p, g.p, g.r.error);
    } else if g.complete.Some? {
      CompleteSafe(g.p, header.id, g.complete.value);
      Onward(p, g.p, OnComplete(g.p, header.id, g.complete.value));
    }
  }

  // --- Every event -----------------------------------------------------------------------------------

  lemma V1Safe(p: Peer, v1: V1Frame)
    requires Inv(p) && p.keys.Some? && Rank(p.st.state) >= 4
    ensures Safe(p, OnV1(p, v1))
  {
    match v1 {
      case Payload(Some(PayloadTransfer(Some(header), Some(chunk)))) =>
        if header.ptype.BytesPayload? {
          BytesSafe(p, header, chunk);
        } else if header.ptype.FilePayload? {
          FileChunkSafe(p, header, chunk);
        }
      case Payload(_) => FailSafe(p, MissingField);
      case KeepAlive(_) => SendSafe(p, OfflineFrame(Some(KeepAlive(true))));
      case _ =>
    }
  }

  lemma SecureSafe(p: Peer, wire: Bytes)
    requires Inv(p) && Rank(p.st.state) >= 4
    ensures Safe(p, OnSecure(p, wire))
  {
    var i := ReceiveSecure(p, wire);
    UnmovedInv(p, i.p);
    if i.r.Err? {
      ErrorSafe(p, i.p, i.r.error);
    } else {
      V1Safe(i.p, i.frame);
      Onward(p, i.p, OnV1(i.p, i.frame));
    }
  }

  lemma FrameSafe(p: Peer, wire: Bytes)
    requires Inv(p)
    ensures Safe(p, OnFrame(p, wire))
  {
    FailSafe(p, FrameTooBig);
    match p.st.state {
      case Initial => ConnectionRequestSafe(p, wire);
      case ReceivedConnectionRequest => ClientInitSafe(p, wire);
      case SentUkeyServerInit => ClientFinishSafe(p, wire);
      case ReceivedUkeyClientFinish => ConnectionResponseSafe(p, wire);
      case _ => SecureSafe(p, wire);
    }
  }

  // What is assumed of the receiver's surroundings.
  ghost predicate Grounded(env: Env) {
    LawfulTape(env.tape)
  }

  /** One event, from any peer: the state moves forward only; the invariant holds after it or the run
      ends as `Closing` says. */
  lemma HandleSafe(p: Peer, e: Event)
    requires Inv(p) && Grounded(p.env) && Sensible(p, e)
    ensures Safe(p, Handle(p, e))
  {
    match e {
      case Frame(wire) => FrameSafe(p, wire);
      case Front(id, action) =>
        if id == p.env.id {
          match action {
            case AcceptTransfer => AcceptSafe(p);
            case RejectTransfer => RejectSafe(p);
            case CancelTransfer => EndSafe(p, Cancelled);
          }
        }
      case Closed =>
    }
  }

  // --- Whole runs --------------------------------------------------------------------------------------

  /** The connection's loop: events are handled until one ends the session. */
  function Run(p: Peer, events: seq<Event>): Step
    decreases |events|
  {
    if |events| == 0 then Step(p, Ok)
    else
      var s := Handle(p, events[0]);
      if s.r.Err? then s else Run(s.p, events[1..])
  }

  ghost predicate SensibleRun(p: Peer, events: seq<Event>)
    decreases |events|
  {
    |events| > 0 ==>
      Sensible(p, events[0]) && (Handle(p, events[0]).r.Ok? ==> SensibleRun(Handle(p, events[0]).p, events[1..]))
  }

  /** Every run of a fresh receiver, whatever the peer sends: it only moves forward, keeps the invariant
      while it lasts, and ends as `Closing` says. */
  lemma {:induction false} RunSafe(p: Peer, events: seq<Event>)
    requires Inv(p) && Grounded(p.env) && SensibleRun(p, events)
    ensures var s := Run(p, events);
            && Rank(p.st.state) <= Rank(s.p.st.state)
            && (Rank(p.st.state) >= 7 ==> Spends(p, s.p))
            && (s.r.Ok? ==> Inv(s.p))
            && (s.r.Err? ==> Closing(s))
    decreases |events|
  {
    if |events| > 0 {
      HandleSafe(p, events[0]);
      var s := Handle(p, events[0]);
      if s.r.Ok? {
        RunSafe(s.p, events[1..]);
      }
    }
  }

  // --- Consent -----------------------------------------------------------------------------------------

  /** Every file in the table is still to be created, under a name that is not in the directory. */
  ghost predicate Unclaimed(files: map<int, FileInfo>, names: set<string>) {
    forall id | id in files :: files[id].handle.None? && files[id].path !in names
  }

  /** A message from the front end that accepts the session with this id. */
  predicate Accepts(id: string, e: Event) {
    e.Front? && e.id == id && e.action.AcceptTransfer?
  }

  predicate NoneAccepts(id: string, events: seq<Event>) {
    forall e | e in events :: !Accepts(id, e)
  }

  lemma {:induction false} TakenUnclaimed(
    files: map<int, FileInfo>, existing: set<string>, list: seq<FileMetadata>, k: nat)
    requires k <= |list| && Unclaimed(files, existing)
    ensures Unclaimed(Taken(files, existing, list, k).files, existing)
  {
    if k > 0 {
      TakenUnclaimed(files, existing, list, k - 1);
      var name := list[k - 1].name;
      Destination.PathIsChosen(existing, name);
      Destination.ChosenIsUnique(existing, name, Destination.Path(existing, name), Destination.Path(existing, name));
    }
  }

  ghost predicate WritesNothing(p: Peer, s: Step) {
    s.p.disk == p.disk && s.p.env == p.env && Unclaimed(s.p.st.files, p.disk.names)
  }

  lemma IntroductionWritesNothing(p: Peer, v1: ShareV1)
    requires Unclaimed(p.st.files, p.disk.names)
    ensures WritesNothing(p, ProcessIntroduction(p, v1))
  {
    if v1.introduction.Some? {
      var list := v1.introduction.value.files;
      TakenUnclaimed(p.st.files, p.disk.names, list, |list|);
    }
  }

  lemma SetupWritesNothing(p: Peer, frame: ShareFrame)
    requires Unclaimed(p.st.files, p.disk.names)
    ensures WritesNothing(p, OnSetup(p, frame))
  {
    if frame.v1.Some? {
      IntroductionWritesNothing(p, frame.v1.value);
    }
  }

  lemma BytesWriteNothing(p: Peer, header: PayloadHeader, chunk: PayloadChunk)
    requires Unclaimed(p.st.files, p.disk.names)
    ensures WritesNothing(p, OnBytes(p, header, chunk))
  {
    var g := Gather(p, header, chunk);
    if g.complete.Some? && p.env.lib.decShare(g.complete.value).Some? {
      SetupWritesNothing(g.p, p.env.lib.decShare(g.complete.value).value);
    }
  }

  lemma V1WritesNothing(p: Peer, v1: V1Frame)
    requires Unclaimed(p.st.files, p.disk.names)
    ensures WritesNothing(p, OnV1(p, v1))
  {
    match v1 {
      case Payload(Some(PayloadTransfer(Some(header), Some(chunk)))) =>
        BytesWriteNothing(p, header, chunk);
      case _ =>
    }
  }

  lemma SecureWritesNothing(p: Peer, wire: Bytes)
    requires Unclaimed(p.st.files, p.disk.names)
    ensures WritesNothing(p, OnSecure(p, wire))
  {
    var i := ReceiveSecure(p, wire);
    V1WritesNothing(i.p, i.frame);
  }

  lemma FrameWritesNothing(p: Peer, wire: Bytes)
    requires Unclaimed(p.st.files, p.disk.names)
    ensures WritesNothing(p, OnFrame(p, wire))
  {
    SecureWritesNothing(p, wire);
  }

  lemma HandleWritesNothing(p: Peer, e: Event)
    requires Unclaimed(p.st.files, p.disk.names) && !Accepts(p.env.id, e)
    ensures WritesNothing(p, Handle(p, e))
  {
    if e.Frame? {
      FrameWritesNothing(p, e.wire);
    }
  }

  /** No file is created or written unless the user accepted: a run in which AcceptTransfer is never
      handled leaves the disk as it was, whatever the peer sends and the front end otherwise does. And the
      names it has picked so far were all free. */
  lemma {:induction false} NoConsentNoWrite(p: Peer, events: seq<Event>)
    requires Unclaimed(p.st.files, p.disk.names) && NoneAccepts(p.env.id, events)
    ensures WritesNothing(p, Run(p, events))
    decreases |events|
  {
    if |events| > 0 {
      HandleWritesNothing(p, events[0]);
      var s := Handle(p, events[0]);
      if s.r.Ok? {
        NoConsentNoWrite(s.p, events[1..]);
      }
    }
  }

  // The names of the files in a table.
  function Paths(files: map<int, FileInfo>): set<string> {
    set id | id in files :: files[id].path
  }

  lemma {:induction false} CreatesOnlyPaths(p: Peer, ids: seq<int>)
    ensures var s := CreateAll(p, ids);
            && Paths(s.p.st.files) == Paths(p.st.files)
            && p.disk.names <= s.p.disk.names <= p.disk.names + Paths(p.st.files)
    decreases |ids|
  {
    if |ids| > 0 && ids[0] in p.st.files && !Broken(p) {
      var q := Create(Spend(p), ids[0]);
      assert p.st.files[ids[0]].path in Paths(p.st.files);
      SamePaths(p.st.files, q.st.files);
      CreatesOnlyPaths(q, ids[1..]);
    }
  }

  lemma SamePaths(a: map<int, FileInfo>, b: map<int, FileInfo>)
    requires a.Keys == b.Keys && forall id | id in a :: a[id].path == b[id].path
    ensures Paths(a) == Paths(b)
  {
    forall path
      ensures path in Paths(a) <==> path in Paths(b)
    {
      if path in Paths(a) {
        var id :| id in a && a[id].path == path;
        assert id in b.Keys;
      }
      if path in Paths(b) {
        var id :| id in b && b[id].path == path;
        assert id in a.Keys;
      }
    }
  }

  /** Acceptance truncates nothing: after any run without an earlier acceptance, what accepting creates has
      none of the names that were in the download directory when the run began. */
  lemma {:induction false} AcceptanceTruncatesNothing(p: Peer, events: seq<Event>)
    requires Unclaimed(p.st.files, p.disk.names) && NoneAccepts(p.env.id, events)
    ensures var q := Run(p, events).p;
            && q.disk == p.disk && Paths(q.st.files) !! p.disk.names
            && Inbound.AcceptTransfer(q).p.disk.names <= p.disk.names + Paths(q.st.files)
  {
    NoConsentNoWrite(p, events);
    var q := Run(p, events).p;
    CreatesOnlyPaths(q, q.env.tape.order(q.st.files.Keys));
  }

  // --- What is written -----------------------------------------------------------------------------------

  // Bytes for one file.
  datatype Piece = Piece(id: int, body: Bytes)

  /** The piece a file chunk adds: it must be for a known open file, start where the file ends, and fit. */
  function PieceOf(p: Peer, header: PayloadHeader, chunk: PayloadChunk): Option<Piece> {
    if header.id !in p.st.files then None
    else
      var f := p.st.files[header.id];
      if chunk.offset == f.transferred && |chunk.body| > 0 && f.transferred + |chunk.body| <= f.total
         && f.handle.Some? && !Broken(p)
      then Some(Piece(header.id, chunk.body))
      else None
  }

  /** The piece an event adds, if it is a file chunk that arrives in sequence and is accepted. */
  function EventPiece(p: Peer, e: Event): Option<Piece> {
    if !e.Frame? || |e.wire| > SANE_FRAME_LENGTH || Rank(p.st.state) < 4 then None
    else
      match ReceiveSecure(p, e.wire)
      case Incoming(q, Ok, Payload(Some(PayloadTransfer(Some(header), Some(chunk))))) =>
        if header.ptype.FilePayload? then PieceOf(q, header, chunk) else None
      case _ => None
  }

  function Append(written: map<int, Bytes>, piece: Option<Piece>): map<int, Bytes> {
    match piece
    case None => written
    case Some(Piece(id, body)) => written[id := (if id in written then written[id] else []) + body]
  }

  lemma ChunkEffect(p: Peer, header: PayloadHeader, chunk: PayloadChunk)
    requires Inv(p)
    ensures OnFileChunk(p, header, chunk).p.disk.written == Append(p.disk.written, PieceOf(p, header, chunk))
  {
  }

  lemma SecureEffect(p: Peer, wire: Bytes)
    requires Inv(p) && Rank(p.st.state) >= 4 && |wire| <= SANE_FRAME_LENGTH
    ensures OnSecure(p, wire).p.disk.written == Append(p.disk.written, EventPiece(p, Frame(wire)))
  {
    var i := ReceiveSecure(p, wire);
    UnmovedInv(p, i.p);
    if i.r.Ok? {
      match i.frame {
        case Payload(Some(PayloadTransfer(Some(header), Some(chunk)))) =>
          ChunkEffect(i.p, header, chunk);
        case _ =>
      }
    }
  }

  /** The exact effect of any event but acceptance on the files: an accepted chunk is appended to its
      file, and everything else, a chunk with a wrong offset or too many bytes included, writes nothing. */
  lemma EventEffect(p: Peer, e: Event)
    requires Inv(p) && !Accepts(p.env.id, e)
    ensures Handle(p, e).p.disk.written == Append(p.disk.written, EventPiece(p, e))
  {
    if e.Frame? && |e.wire| <= SANE_FRAME_LENGTH && Rank(p.st.state) >= 4 {
      SecureEffect(p, e.wire);
    }
  }

  /** What an event adds to one file. */
  function Gain(p: Peer, e: Event, id: int): Bytes {
    match EventPiece(p, e)
    case None => []
    case Some(Piece(at, body)) => if at == id then body else []
  }

  lemma GainEffect(p: Peer, e: Event, id: int)
    requires Inv(p) && !Accepts(p.env.id, e) && id in p.disk.written
    ensures var w := Handle(p, e).p.disk.written; id in w && w[id] == p.disk.written[id] + Gain(p, e, id)
  {
    EventEffect(p, e);
  }

  /** All bytes that a run adds to one file, in order. */
  function Added(p: Peer, events: seq<Event>, id: int): Bytes
    decreases |events|
  {
    if |events| == 0 then []
    else
      var s := Handle(p, events[0]);
      Gain(p, events[0], id) + if s.r.Err? then [] else Added(s.p, events[1..], id)
  }

  lemma Regroup(x: Bytes, y: Bytes, z: Bytes)
    ensures x + y + z == x + (y + z)
  {
  }

  /** After an acceptance, each file holds what it held plus the accepted bodies for its id, in order. */
  lemma {:induction false} FilesAreTheirPieces(p: Peer, events: seq<Event>, id: int)
    requires Inv(p) && Grounded(p.env) && SensibleRun(p, events)
    requires id in p.disk.written && NoneAccepts(p.env.id, events)
    ensures var w := Run(p, events).p.disk.written;
            id in w && w[id] == p.disk.written[id] + Added(p, events, id)
    decreases |events|
  {
    if |events| > 0 {
      var e, rest := events[0], events[1..];
      GainEffect(p, e, id);
      HandleSafe(p, e);
      var s := Handle(p, e);
      if s.r.Ok? {
        FilesAreTheirPieces(s.p, rest, id);
        Regroup(p.disk.written[id], Gain(p, e, id), Added(s.p, rest, id));
      }
    }
  }
}
