/** Whole runs of the composed system: a joint invariant over both sides and both streams, and what follows
    from it for every run in which the user accepts and nobody cancels. */
module SessionRuns {
  import opened Wrappers
  import opened Messages
  import opened Libraries
  import opened SecureChannel
  import opened Peers
  import opened Ledgers
  import opened Reassembly
  import opened Sessions
  import opened SessionHandshake
  import opened Delivery
  import opened SessionTransfer
  import I = Inbound
  import O = Outbound
  import InboundSafety
  import OutboundSafety

  // --- Each side's invariant -------------------------------------------------------------------------

  /** The receiver after n messages. */
  ghost predicate ReceiverInv(c: Plan, r: Peer, n: nat, accepted: bool, g: Standing) {
    if n < 4 then !accepted && ReceiverClear(c, r, n)
    else if n < 10 then !accepted && ReceiverPairing(c, r, n - 4)
    else if !accepted then n == 10 && ReceiverAsking(c, r)
    else ReceiverTransferring(c, r, n - 4, g)
  }

  /** The sender after n messages. */
  ghost predicate SenderInv(c: Plan, s: Peer, n: nat, job: Option<seq<int>>, g: Standing) {
    if n == 0 then job.None? && SenderOpened(c, s)
    else if n == 1 then job.None? && SenderFinished(c, s)
    else if n < 8 then job.None? && SenderPairing(c, s, n - 2)
    else if job.Some? then n == 8 && SenderSending(c, s, job.value, g)
    else SenderDone(c, s, n - 2, g)
  }

  // --- The receiver's reads before consent -----------------------------------------------------------

  /** The letters posted once message k of them has been. */
  function Needed(k: nat): (n: nat)
    ensures k < 6 ==> n <= 3 && 2 * n - 2 <= k < 2 * n
  {
    if k < 2 then 1 else if k < 4 then 2 else 3
  }

  /** What the sender has written is what the receiver needs next. */
  ghost predicate Written(c: Plan, s: Peer, n: nat) {
    && n < |s.out| && Fits(s.out[n])
    && match n
       case 0 => s.out[0] == c.script.request
       case 1 => s.out[1] == c.script.clientInit
       case 2 => s.out[2] == c.script.finish
       case 3 => s.out[3] == c.script.accept
       case _ => SenderSecure(c, s) && (n < 10 ==> HasPosted(s, c.script.sLetters, Needed(n - 4)))
  }

  lemma PairingWritten(c: Plan, s: Peer, l: nat, n: nat)
    requires SenderPairing(c, s, l) && n < |s.out| && Fits(s.out[n])
    ensures Written(c, s, n) && |s.out| <= 10
  {
    if n >= 4 {
      PostedPrefix(c.Lib(), c.script.sLetters, if l < 2 then 1 else if l < 4 then 2 else 3, Needed(n - 4));
    }
  }

  lemma MailWritten(c: Plan, s: Peer, n: nat)
    requires SenderSecure(c, s) && OfferMail(c) <= s.sent && n < |s.out| && Fits(s.out[n])
    ensures Written(c, s, n)
  {
    if 4 <= n < 10 {
      var j := Needed(n - 4);
      PostedPrefix(c.Lib(), c.script.sLetters, 3, j);
      assert s.sent[..2 * j] == OfferMail(c)[..2 * j];
    }
  }

  lemma NextWritten(c: Plan, s: Peer, l: nat, job: Option<seq<int>>, g: Standing, n: nat)
    requires SenderInv(c, s, l, job, g) && n < |s.out| && Fits(s.out[n])
    ensures Written(c, s, n) && (l < 8 ==> |s.out| <= 10)
  {
    if l < 2 {
    } else if l < 8 {
      PairingWritten(c, s, l - 2, n);
    } else {
      MailWritten(c, s, n);
    }
  }

  lemma HelloHandled(r: Peer, wire: Bytes)
    requires Fits(wire)
    ensures r.st.state.Initial? ==> I.Handle(r, Frame(wire)) == I.OnConnectionRequest(r, wire)
    ensures r.st.state.ReceivedConnectionRequest? ==> I.Handle(r, Frame(wire)) == I.OnClientInit(r, wire)
    ensures r.st.state.SentUkeyServerInit? ==> I.Handle(r, Frame(wire)) == I.OnClientFinish(r, wire)
  {
  }

  lemma HelloRead(c: Plan, s: Peer, r: Peer, n: nat)
    requires ScriptedHello(c)
    requires HonestChannel(c.sEnv, c.rEnv) && HonestHello(c.sEnv, c.rEnv) && n < 2 && ReceiverClear(c, r, n)
    requires Written(c, s, n)
    ensures var t := I.Handle(r, Frame(s.out[n])); t.r.Ok? && ReceiverClear(c, t.p, n + 1)
  {
    HelloHandled(r, s.out[n]);
    if n == 0 {
      RequestRead(c, r);
    } else {
      ClientInitRead(c, r);
    }
  }

  lemma KeysRead(c: Plan, s: Peer, r: Peer)
    requires ScriptedHello(c) && ScriptedKeys(c)
    requires HonestChannel(c.sEnv, c.rEnv) && SendableKeys(c.sEnv, c.rEnv) && ReceiverClear(c, r, 2) && Written(c, s, 2)
    ensures var t := I.Handle(r, Frame(s.out[2])); t.r.Ok? && ReceiverClear(c, t.p, 3)
  {
    FinishRead(c, r);
  }

  lemma AnswerRead(c: Plan, s: Peer, r: Peer)
    requires ScriptedMail(c) && HonestChannel(c.sEnv, c.rEnv) && ReceiverClear(c, r, 3) && Written(c, s, 3)
    ensures var t := I.Handle(r, Frame(s.out[3])); t.r.Ok? && ReceiverPairing(c, t.p, 0)
  {
    ResponseRead(c, r);
  }

  lemma {:induction false} LetterRead(c: Plan, r: Peer, j: nat)
    requires ScriptedMail(c)
    requires HonestChannel(c.sEnv, c.rEnv) && HonestFiles(c.sEnv, c.rEnv)
    requires ReceiverPairing(c, r, 2 * j + 1) && r.st.buffers == Sorted(c.Lib(), c.script.sLetters, 2 * j + 2)
    ensures var t := I.OnSetup(Counted(r), c.script.sLetters[j].frame);
            t.r.Ok? && if j < 2 then ReceiverPairing(c, t.p, 2 * j + 2) else ReceiverAsking(c, t.p)
  {
    if j == 0 {
      ReceiverPairs(c, r);
    } else if j == 1 {
      ReceiverPaired(c, r);
    } else {
      ReceiverAsks(c, r);
    }
  }

  lemma LastChunkRead(c: Plan, s: Peer, r: Peer, j: nat)
    requires ScriptedMail(c)
    requires HonestChannel(c.sEnv, c.rEnv) && HonestMail(c) && HonestFiles(c.sEnv, c.rEnv)
    requires ReceiverPairing(c, r, 2 * j + 1)
    requires Written(c, s, 4 + 2 * j + 1)
    ensures var t := I.OnSecure(r, s.out[4 + 2 * j + 1]);
            t.r.Ok? && if j < 2 then ReceiverPairing(c, t.p, 2 * j + 2) else ReceiverAsking(c, t.p)
  {
    ReceiverHasLetter(c, s, r, j);
    LetterRead(c, r, j);
  }

  // --- The sender's reads ------------------------------------------------------------------------------

  /** What the receiver has written is what the sender needs next. */
  ghost predicate Answered(c: Plan, r: Peer, n: nat) {
    && n < |r.out| && Fits(r.out[n])
    && match n
       case 0 => r.out[0] == c.script.serverInit
       case 1 => r.out[1] == c.script.accept
       case _ =>
         && ReceiverSecure(c, r)
         && if n < 8 then HasPosted(r, c.script.rLetters, Needed(n - 2)) else r.sent[n - 2] == GOODBYE
  }

  lemma PairingAnswered(c: Plan, r: Peer, k: nat, n: nat)
    requires c.rEnv.lib == c.sEnv.lib
    requires ReceiverPairing(c, r, k) && n < |r.out| && Fits(r.out[n])
    ensures Answered(c, r, n) && |r.out| <= 6
  {
    if n >= 2 {
      PostedPrefix(c.Lib(), c.script.rLetters, if k < 2 then 1 else 2, Needed(n - 2));
    }
  }

  lemma AskingAnswered(c: Plan, r: Peer, n: nat)
    requires c.rEnv.lib == c.sEnv.lib
    requires ReceiverAsking(c, r) && n < |r.out| && Fits(r.out[n])
    ensures Answered(c, r, n) && |r.out| <= 6
  {
    if n >= 2 {
      PostedPrefix(c.Lib(), c.script.rLetters, 2, Needed(n - 2));
    }
  }

  lemma TransferAnswered(c: Plan, r: Peer, k: nat, g: Standing, n: nat)
    requires c.rEnv.lib == c.sEnv.lib
    requires ReceiverTransferring(c, r, k, g) && n < |r.out| && Fits(r.out[n])
    ensures Answered(c, r, n) && |r.out| <= 9
  {
    if 2 <= n < 8 {
      var j := Needed(n - 2);
      PostedPrefix(c.Lib(), c.script.rLetters, 3, j);
      assert r.sent[..2 * j] == AnswerMail(c)[..2 * j];
    }
  }

  lemma NextAnswered(c: Plan, r: Peer, k: nat, accepted: bool, g: Standing, n: nat)
    requires c.rEnv.lib == c.sEnv.lib
    requires ReceiverInv(c, r, k, accepted, g) && n < |r.out| && Fits(r.out[n])
    ensures Answered(c, r, n) && (n >= 6 ==> accepted) && (n >= 8 ==> |r.out| == 9 && n == 8)
  {
    if k < 4 {
    } else if k < 10 {
      PairingAnswered(c, r, k - 4, n);
    } else if !accepted {
      AskingAnswered(c, r, n);
    } else {
      TransferAnswered(c, r, k - 4, g, n);
    }
  }

  /** An ordinary message: it does not put the sender into its loops. */
  ghost predicate Plain(s: Peer, wire: Bytes, t: Step) {
    O.Consented(s, wire).None? && O.FilesOk(s.st.files) && O.Handle(s, Frame(wire)) == t && t.r.Ok?
  }

  lemma PlainSecure(s: Peer, wire: Bytes, t: Step)
    requires Rank(s.st.state) >= 4 && Fits(wire) && O.FilesOk(s.st.files) && O.Consented(s, wire).None?
    requires t == O.OnSecure(s, wire) && t.r.Ok?
    ensures Plain(s, wire, t)
  {
  }

  lemma PlainClear(s: Peer, wire: Bytes, t: Step)
    requires Fits(wire) && O.FilesOk(s.st.files) && t.r.Ok?
    requires (s.st.state.SentUkeyClientInit? && t == O.OnServerInit(s, wire))
          || (s.st.state.SentUkeyClientFinish? && t == O.OnConnectionResponse(s, wire))
    ensures Plain(s, wire, t)
  {
  }

  lemma ClearAnswer(c: Plan, s: Peer, r: Peer, n: nat) returns (t: Step)
    requires Scripted(c) && HonestChannel(c.sEnv, c.rEnv) && HonestHello(c.sEnv, c.rEnv)
    requires SendableKeys(c.sEnv, c.rEnv) && Answered(c, r, n)
    requires (n == 0 && SenderOpened(c, s)) || (n == 1 && SenderFinished(c, s))
    ensures Plain(s, r.out[n], t) && if n == 0 then SenderFinished(c, t.p) else SenderPairing(c, t.p, 0)
  {
    if n == 0 {
      ServerInitRead(c, s);
      t := O.OnServerInit(s, r.out[0]);
    } else {
      AcceptanceRead(c, s);
      t := O.OnConnectionResponse(s, r.out[1]);
    }
    PlainClear(s, r.out[n], t);
  }

  lemma PairingFilesOk(c: Plan, s: Peer, l: nat)
    requires SenderPairing(c, s, l) && OutboundSafety.DistinctIds(c.sEnv)
    ensures O.FilesOk(s.st.files)
  {
    OutboundSafety.AnnouncedBooks(c.sEnv, |c.sEnv.payload|);
  }

  lemma ChunkIsNoConsent(s: Peer, wire: Bytes, id: int, body: Bytes)
    requires ReceiveSecure(s, wire) == Incoming(Counted(s), Ok, BodyChunk(id, body).v1.value)
    requires id !in s.st.buffers && |body| <= SANE_FRAME_LENGTH
    ensures O.Consented(s, wire).None?
  {
    FirstChunkStored(Counted(s), id, body);
  }

  /** The first chunk of a letter completes nothing, so it is no acceptance. */
  lemma NoConsentYet(c: Plan, s: Peer, r: Peer, j: nat)
    requires HonestChannel(c.sEnv, c.rEnv) && HonestMail(c) && SenderPairing(c, s, 2 * j) && Answered(c, r, 2 + 2 * j)
    ensures O.Consented(s, r.out[2 + 2 * j]).None?
  {
    var letter := c.script.rLetters[j];
    SenderGetsChunk(c, s, r, j);
    ChunkIsNoConsent(s, r.out[2 + 2 * j], letter.id, c.Lib().encShare(letter.frame));
  }

  lemma {:induction false} LetterAnswered(c: Plan, s: Peer, j: nat)
    requires ScriptedMail(c) && HonestChannel(c.sEnv, c.rEnv) && O.FilesOk(s.st.files) && j < 2
    requires SenderPairing(c, s, 2 * j + 1) && s.st.buffers == Sorted(c.Lib(), c.script.rLetters, 2 * j + 2)
    ensures var t := O.OnSetup(Counted(s), c.script.rLetters[j].frame); t.r.Ok? && SenderPairing(c, t.p, 2 * j + 2)
  {
    if j == 0 {
      SenderPairs(c, s);
    } else {
      SenderOffers(c, s);
    }
  }

  lemma FirstChunkAnswered(c: Plan, s: Peer, r: Peer, j: nat)
    requires HonestChannel(c.sEnv, c.rEnv) && HonestMail(c) && O.FilesOk(s.st.files)
    requires SenderPairing(c, s, 2 * j) && Answered(c, r, 2 + 2 * j)
    ensures O.Consented(s, r.out[2 + 2 * j]).None?
    ensures var t := O.OnSecure(s, r.out[2 + 2 * j]); t.r.Ok? && SenderPairing(c, t.p, 2 * j + 1)
  {
    SenderOpensLetter(c, s, r, j);
    NoConsentYet(c, s, r, j);
  }

  lemma NotOffered(c: Plan, s: Peer, l: nat, wire: Bytes)
    requires SenderPairing(c, s, l) && l < 4
    ensures O.Consented(s, wire).None?
  {
  }

  lemma LastChunkAnswered(c: Plan, s: Peer, r: Peer, j: nat)
    requires ScriptedMail(c) && HonestChannel(c.sEnv, c.rEnv) && HonestMail(c) && O.FilesOk(s.st.files)
    requires j < 2 && SenderPairing(c, s, 2 * j + 1) && Answered(c, r, 3 + 2 * j)
    ensures O.Consented(s, r.out[3 + 2 * j]).None?
    ensures var t := O.OnSecure(s, r.out[3 + 2 * j]); t.r.Ok? && SenderPairing(c, t.p, 2 * j + 2)
  {
    NotOffered(c, s, 2 * j + 1, r.out[3 + 2 * j]);
    SenderHasLetter(c, s, r, j);
    LetterAnswered(c, s, j);
  }

  lemma ConsentArrives(c: Plan, s: Peer, r: Peer)
    requires ScriptedMail(c) && HonestChannel(c.sEnv, c.rEnv) && HonestMail(c) && HonestFiles(c.sEnv, c.rEnv)
    requires SenderPairing(c, s, 5) && Answered(c, r, 7)
    ensures O.FilesOk(s.st.files) && O.Consented(s, r.out[7]) == Some(Counted(s))
    ensures var b := O.BeginSending(Counted(s));
            SenderSending(c, b, b.env.tape.order(b.st.files.Keys), Zero(Offered(c.sEnv)))
  {
    PairingFilesOk(c, s, 5);
    ConsentRead(c, s, r);
    SendingBegins(c, s);
  }

  // --- Both sides together ---------------------------------------------------------------------------------

  /** The streams: each side has read a prefix, and what the receiver has yet to read plays from where its
      files stand to where the sender's do. */
  ghost predicate Linked(c: Plan, x: Sys, gr: Standing, gs: Standing) {
    && x.rRead <= |x.s.out| && x.sRead <= |x.r.out|
    && if x.sRead < 8 then x.accepted ==> gr == Zero(Offered(c.sEnv))
       else
         && x.accepted && 0 <= x.rRead - 4 <= |x.s.sent|
         && Play(Offered(c.sEnv), x.s.sent[x.rRead - 4..], gr) == Some(gs)
  }

  /** No side has failed; the receiver has ended exactly when it has closed every file. */
  ghost predicate Alive(c: Plan, x: Sys, gr: Standing) {
    && x.sEnd.Ok?
    && x.rEnd == (if x.accepted && Whole(c, gr) then Err(NotAnError) else Ok)
  }

  ghost predicate Kept(s: Peer, job: Option<seq<int>>) {
    if job.Some? then OutboundSafety.LoopInv(s) else OutboundSafety.Inv(s)
  }

  ghost predicate Joint(c: Plan, x: Sys, gr: Standing, gs: Standing) {
    && ReceiverInv(c, x.r, x.rRead, x.accepted, gr) && SenderInv(c, x.s, x.sRead, x.job, gs)
    && Linked(c, x, gr, gs) && Alive(c, x, gr) && Kept(x.s, x.job)
  }

  lemma InitJoint(c: Plan)
    requires Planned(c)
    ensures Joint(c, Init(c.Sides()), Zero(Offered(c.sEnv)), Zero(Offered(c.sEnv)))
  {
    OpeningPoint(c);
    OutboundSafety.OpenedInv(c.sEnv, None);
  }

  // --- The receiver's step ---------------------------------------------------------------------------------

  lemma ClearStep(c: Plan, s: Peer, r: Peer, n: nat, g: Standing)
    requires Scripted(c) && HonestChannel(c.sEnv, c.rEnv) && HonestHello(c.sEnv, c.rEnv) && SendableKeys(c.sEnv, c.rEnv)
    requires n < 4 && ReceiverClear(c, r, n) && Written(c, s, n)
    ensures var t := I.Handle(r, Frame(s.out[n])); t.r.Ok? && ReceiverInv(c, t.p, n + 1, false, g)
  {
    if n < 2 {
      HelloRead(c, s, r, n);
    } else if n == 2 {
      KeysRead(c, s, r);
    } else {
      AnswerRead(c, s, r);
    }
  }

  lemma PairingOpens(c: Plan, s: Peer, r: Peer, j: nat)
    requires HonestChannel(c.sEnv, c.rEnv) && HonestMail(c)
    requires ReceiverPairing(c, r, 2 * j) && Written(c, s, 4 + 2 * j)
    ensures var t := I.OnSecure(r, s.out[4 + 2 * j]); t.r.Ok? && ReceiverPairing(c, t.p, 2 * j + 1)
  {
    ReceiverOpensLetter(c, s, r, j);
  }

  lemma PairingStep(c: Plan, s: Peer, r: Peer, k: nat)
    requires ScriptedMail(c) && HonestChannel(c.sEnv, c.rEnv) && HonestMail(c) && HonestFiles(c.sEnv, c.rEnv)
    requires ReceiverPairing(c, r, k) && Written(c, s, 4 + k)
    ensures var t := I.OnSecure(r, s.out[4 + k]);
            t.r.Ok? && if k < 5 then ReceiverPairing(c, t.p, k + 1) else ReceiverAsking(c, t.p)
  {
    if k % 2 == 0 {
      PairingOpens(c, s, r, k / 2);
    } else {
      LastChunkRead(c, s, r, k / 2);
    }
  }

  /** The next frame of what the receiver has yet to read. */
  lemma {:induction false} PlayNext(files: Files, frames: seq<OfflineFrame>, k: nat, g: Standing)
    requires k < |frames| && Play(files, frames[k..], g).Some?
    ensures Apply(files, frames[k], g).Some? && frames[k].v1.Some?
    ensures Play(files, frames[k + 1..], Apply(files, frames[k], g).value) == Play(files, frames[k..], g)
  {
    assert frames[k..][1..] == frames[k + 1..];
  }

  /** The next secure message after acceptance carries the next frame. */
  ghost predicate Opens(c: Plan, s: Peer, r: Peer, n: nat) {
    && 4 <= n < |s.out| && n - 4 < |s.sent| && s.sent[n - 4].v1.Some?
    && ReceiveSecure(r, s.out[n]) == Incoming(Counted(r), Ok, s.sent[n - 4].v1.value)
  }

  lemma {:induction false} FrameOpens(c: Plan, s: Peer, r: Peer, n: nat, gr: Standing, gs: Standing)
    requires HonestChannel(c.sEnv, c.rEnv) && SenderSecure(c, s) && 10 <= n < 4 + |s.sent|
    requires ReceiverInv(c, r, n, true, gr) && Play(Offered(c.sEnv), s.sent[n - 4..], gr) == Some(gs)
    ensures Opens(c, s, r, n)
  {
    PlayNext(Offered(c.sEnv), s.sent, n - 4, gr);
    NextToReceiver(c, s, r, n - 4);
  }

  /** After n messages the receiver stands at h, from where the rest of what was sent plays. */
  ghost predicate ReadTo(c: Plan, s: Peer, t: Step, n: nat, h: Standing, gs: Standing) {
    && ReceiverInv(c, t.p, n, true, h) && t.r == (if Whole(c, h) then Err(NotAnError) else Ok)
    && 0 <= n - 4 <= |s.sent| && Play(Offered(c.sEnv), s.sent[n - 4..], h) == Some(gs)
  }

  lemma LateRead(c: Plan, s: Peer, r: Peer, n: nat, gr: Standing, gs: Standing) returns (h: Standing)
    requires Opens(c, s, r, n) && n >= 10
    requires ReceiverTransferring(c, r, n - 4, gr) && !Whole(c, gr)
    requires Play(Offered(c.sEnv), s.sent[n - 4..], gr) == Some(gs)
    ensures ReadTo(c, s, I.OnSecure(r, s.out[n]), n + 1, h, gs)
  {
    var k := n - 4;
    PlayNext(Offered(c.sEnv), s.sent, k, gr);
    FrameReadOn(c, r, k, s.out[n], s.sent[k], gr);
    h := Apply(Offered(c.sEnv), s.sent[k], gr).value;
  }

  /** How much the receiver has written. */
  function ReceiverLength(n: nat, accepted: bool, whole: bool): nat {
    if n < 2 then 0
    else if n < 4 then 1
    else if n < 6 then 4
    else if !accepted then 6
    else if whole then 9 else 8
  }

  lemma ReceiverWrote(c: Plan, r: Peer, n: nat, accepted: bool, g: Standing)
    requires ReceiverInv(c, r, n, accepted, g)
    ensures |r.out| == ReceiverLength(n, accepted, Whole(c, g)) && (accepted ==> n >= 10)
  {
  }

  /** Once the user has accepted, there is more to read only when the sender has read that. */
  lemma SenderHeard(c: Plan, x: Sys, gs: Standing)
    requires SenderInv(c, x.s, x.sRead, x.job, gs) && 10 <= x.rRead < |x.s.out| && Fits(x.s.out[x.rRead])
    ensures SenderSecure(c, x.s) && x.sRead >= 8
  {
    NextWritten(c, x.s, x.sRead, x.job, gs, x.rRead);
  }

  /** Before consent the receiver never has more than ten messages to read. */
  lemma NothingMoreToRead(c: Plan, x: Sys, gr: Standing, gs: Standing)
    requires Joint(c, x, gr, gs) && !x.accepted && x.rRead < |x.s.out| && Fits(x.s.out[x.rRead])
    ensures x.rRead < 10 && Written(c, x.s, x.rRead)
  {
    NextWritten(c, x.s, x.sRead, x.job, gs, x.rRead);
  }

  /** The receiver's half of the joint invariant. */
  ghost predicate ReceiverSide(c: Plan, x: Sys, gr: Standing, gs: Standing) {
    ReceiverInv(c, x.r, x.rRead, x.accepted, gr) && Linked(c, x, gr, gs) && Alive(c, x, gr)
  }

  function Received(x: Sys, t: Step): Sys {
    x.(r := t.p, rEnd := t.r, rRead := x.rRead + 1)
  }

  lemma EarlyReceived(c: Plan, x: Sys, t: Step, gr: Standing, gs: Standing)
    requires ReceiverSide(c, x, gr, gs) && !x.accepted && x.rRead < |x.s.out|
    requires t.r.Ok? && ReceiverInv(c, t.p, x.rRead + 1, false, gr)
    ensures ReceiverSide(c, Received(x, t), gr, gs)
  {
    ReceiverWrote(c, x.r, x.rRead, false, gr);
    ReceiverWrote(c, t.p, x.rRead + 1, false, gr);
  }

  /** The receiver only ever writes more. */
  lemma ReceiverWroteMore(c: Plan, r: Peer, q: Peer, n: nat, g: Standing, h: Standing)
    requires ReceiverInv(c, r, n, true, g) && ReceiverInv(c, q, n + 1, true, h) && !Whole(c, g)
    ensures |r.out| <= |q.out|
  {
    ReceiverWrote(c, r, n, true, g);
    ReceiverWrote(c, q, n + 1, true, h);
  }

  lemma {:induction false} LateLinked(c: Plan, x: Sys, y: Sys, gr: Standing, h: Standing, gs: Standing)
    requires Linked(c, x, gr, gs) && x.sRead >= 8 && x.rRead < |x.s.out|
    requires y == x.(r := y.r, rEnd := y.rEnd, rRead := x.rRead + 1) && |x.r.out| <= |y.r.out|
    requires 0 <= y.rRead - 4 <= |x.s.sent| && Play(Offered(c.sEnv), x.s.sent[y.rRead - 4..], h) == Some(gs)
    ensures Linked(c, y, h, gs)
  {
  }

  lemma {:induction false} LateReceived(c: Plan, x: Sys, t: Step, gr: Standing, h: Standing, gs: Standing)
    requires ReceiverSide(c, x, gr, gs) && x.accepted && !Whole(c, gr) && x.rRead < |x.s.out| && x.sRead >= 8
    requires ReadTo(c, x.s, t, x.rRead + 1, h, gs)
    ensures ReceiverSide(c, Received(x, t), h, gs)
  {
    ReceiverWroteMore(c, x.r, t.p, x.rRead, gr, h);
    LateLinked(c, x, Received(x, t), gr, h, gs);
  }

  lemma ReceiverHandles(r: Peer, wire: Bytes)
    requires Rank(r.st.state) >= 4 && Fits(wire)
    ensures I.Handle(r, Frame(wire)) == I.OnSecure(r, wire)
  {
  }

  lemma PairingReceived(c: Plan, x: Sys, gr: Standing, gs: Standing)
    requires ScriptedMail(c) && HonestChannel(c.sEnv, c.rEnv) && HonestMail(c) && HonestFiles(c.sEnv, c.rEnv)
    requires ReceiverSide(c, x, gr, gs) && !x.accepted && 4 <= x.rRead < 10 && Written(c, x.s, x.rRead)
    ensures ReceiverSide(c, Received(x, I.OnSecure(x.r, x.s.out[x.rRead])), gr, gs)
  {
    PairingStep(c, x.s, x.r, x.rRead - 4);
    EarlyReceived(c, x, I.OnSecure(x.r, x.s.out[x.rRead]), gr, gs);
  }

  lemma ClearReceived(c: Plan, x: Sys, gr: Standing, gs: Standing)
    requires Scripted(c) && HonestChannel(c.sEnv, c.rEnv) && HonestHello(c.sEnv, c.rEnv) && SendableKeys(c.sEnv, c.rEnv)
    requires ReceiverSide(c, x, gr, gs) && !x.accepted && x.rRead < 4 && Written(c, x.s, x.rRead)
    ensures ReceiverSide(c, Received(x, I.Handle(x.r, Frame(x.s.out[x.rRead]))), gr, gs)
  {
    ClearStep(c, x.s, x.r, x.rRead, gr);
    EarlyReceived(c, x, I.Handle(x.r, Frame(x.s.out[x.rRead])), gr, gs);
  }

  lemma FrameRead(c: Plan, x: Sys, gr: Standing, gs: Standing) returns (h: Standing)
    requires Opens(c, x.s, x.r, x.rRead) && x.sRead >= 8 && 10 <= x.rRead
    requires ReceiverTransferring(c, x.r, x.rRead - 4, gr) && !Whole(c, gr) && Linked(c, x, gr, gs)
    ensures ReadTo(c, x.s, I.OnSecure(x.r, x.s.out[x.rRead]), x.rRead + 1, h, gs)
  {
    h := LateRead(c, x.s, x.r, x.rRead, gr, gs);
  }

  lemma FrameReceived(c: Plan, x: Sys, gr: Standing, gs: Standing) returns (h: Standing)
    requires Opens(c, x.s, x.r, x.rRead) && x.sRead >= 8
    requires ReceiverSide(c, x, gr, gs) && x.accepted && !Whole(c, gr) && x.rRead >= 10
    ensures ReceiverSide(c, Received(x, I.OnSecure(x.r, x.s.out[x.rRead])), h, gs)
  {
    h := FrameRead(c, x, gr, gs);
    LateReceived(c, x, I.OnSecure(x.r, x.s.out[x.rRead]), gr, h, gs);
  }

  /** After four messages the receiver expects only secure ones. */
  lemma ReceiverSecured(c: Plan, x: Sys, gr: Standing)
    requires ReceiverInv(c, x.r, x.rRead, x.accepted, gr) && 4 <= x.rRead < |x.s.out| && Fits(x.s.out[x.rRead])
    ensures I.Handle(x.r, Frame(x.s.out[x.rRead])) == I.OnSecure(x.r, x.s.out[x.rRead])
  {
    ReceiverHandles(x.r, x.s.out[x.rRead]);
  }

  lemma ReceiverSideKept(c: Plan, x: Sys, gr: Standing, gs: Standing) returns (h: Standing)
    requires Planned(c) && ReceiverSide(c, x, gr, gs) && Enabled(x, ToReceiver) && Fits(x.s.out[x.rRead])
    requires if x.accepted then Opens(c, x.s, x.r, x.rRead) && x.sRead >= 8
             else x.rRead < 10 && Written(c, x.s, x.rRead)
    ensures ReceiverSide(c, ReceiverStep(x), h, gs)
  {
    h := gr;
    if x.rRead < 4 {
      ClearReceived(c, x, gr, gs);
    } else {
      ReceiverSecured(c, x, gr);
      if x.accepted {
        h := FrameReceived(c, x, gr, gs);
      } else {
        PairingReceived(c, x, gr, gs);
      }
    }
  }

  lemma SenderReady(c: Plan, x: Sys, gr: Standing, gs: Standing)
    requires HonestChannel(c.sEnv, c.rEnv) && Joint(c, x, gr, gs) && x.rRead < |x.s.out| && Fits(x.s.out[x.rRead])
    ensures if x.accepted then Opens(c, x.s, x.r, x.rRead) && x.sRead >= 8
            else x.rRead < 10 && Written(c, x.s, x.rRead)
  {
    if x.accepted {
      SenderHeard(c, x, gs);
      FrameOpens(c, x.s, x.r, x.rRead, gr, gs);
    } else {
      NothingMoreToRead(c, x, gr, gs);
    }
  }

  lemma ReceiverStepJoint(c: Plan, x: Sys, gr: Standing, gs: Standing) returns (h: Standing)
    requires Planned(c) && Joint(c, x, gr, gs) && Fitting(x) && Enabled(x, ToReceiver)
    ensures Joint(c, ReceiverStep(x), h, gs)
  {
    SenderReady(c, x, gr, gs);
    h := ReceiverSideKept(c, x, gr, gs);
  }

  lemma AskingNow(c: Plan, r: Peer, n: nat, g: Standing)
    requires ReceiverInv(c, r, n, false, g) && r.st.state.WaitingForUserConsent?
    ensures n == 10 && ReceiverAsking(c, r)
  {
  }

  lemma AcceptMove(c: Plan, r: Peer)
    requires ScriptedMail(c) && HonestChannel(c.sEnv, c.rEnv) && HonestFiles(c.sEnv, c.rEnv) && ReceiverAsking(c, r)
    ensures var t := I.Handle(r, Front(r.env.id, AcceptTransfer));
            t.r.Ok? && ReceiverInv(c, t.p, 10, true, Zero(Offered(c.sEnv))) && !Whole(c, Zero(Offered(c.sEnv)))
  {
    AcceptancePosted(c, r);
    OfferNotEmpty(c);
  }

  lemma AcceptStepJoint(c: Plan, x: Sys, gr: Standing, gs: Standing)
    requires Planned(c) && Joint(c, x, gr, gs) && Enabled(x, UserAccepts)
    ensures Joint(c, AcceptStep(x), Zero(Offered(c.sEnv)), gs)
  {
    AskingNow(c, x.r, x.rRead, gr);
    AcceptMove(c, x.r);
    ReceiverWrote(c, x.r, x.rRead, false, gr);
    ReceiverWrote(c, AcceptStep(x).r, x.rRead, true, Zero(Offered(c.sEnv)));
  }

  // --- The sender's step -----------------------------------------------------------------------------------

  lemma PairingAnswer(c: Plan, s: Peer, r: Peer, l: nat)
    requires ScriptedMail(c) && HonestChannel(c.sEnv, c.rEnv) && HonestMail(c) && O.FilesOk(s.st.files)
    requires l < 5 && SenderPairing(c, s, l) && Answered(c, r, l + 2)
    ensures O.Consented(s, r.out[l + 2]).None?
    ensures var t := O.OnSecure(s, r.out[l + 2]); t.r.Ok? && SenderPairing(c, t.p, l + 1)
  {
    if l % 2 == 0 {
      FirstChunkAnswered(c, s, r, l / 2);
    } else {
      LastChunkAnswered(c, s, r, l / 2);
    }
  }

  lemma PairingSecured(c: Plan, s: Peer, l: nat)
    requires SenderPairing(c, s, l)
    ensures Rank(s.st.state) >= 4
  {
  }

  /** How much the sender has written before its loops. */
  function SenderLength(n: nat): nat {
    if n == 0 then 2 else if n == 1 then 4 else if n < 4 then 6 else if n < 6 then 8 else 10
  }

  lemma SenderWrote(c: Plan, s: Peer, n: nat, job: Option<seq<int>>, g: Standing)
    requires SenderInv(c, s, n, job, g)
    ensures n < 8 ==> |s.out| == SenderLength(n)
    ensures n >= 2 ==> |s.out| == 4 + |s.sent|
    ensures n >= 8 ==> OfferMail(c) <= s.sent
  {
  }

  lemma PlainKept(c: Plan, s: Peer, wire: Bytes, t: Step)
    requires OutboundSafety.Inv(s) && OutboundSafety.DistinctIds(s.env) && Plain(s, wire, t)
    ensures OutboundSafety.Inv(t.p)
  {
    OutboundSafety.HandleSafe(s, Frame(wire));
  }

  lemma EarlyJoins(c: Plan, x: Sys, t: Step, gr: Standing, gs: Standing)
    requires Joint(c, x, gr, gs) && x.sRead < 7 && x.sRead < |x.r.out| && x.job.None?
    requires SenderInv(c, t.p, x.sRead + 1, None, gs) && OutboundSafety.Inv(t.p) && t.r.Ok?
    ensures Joint(c, x.(s := t.p, sEnd := t.r, sRead := x.sRead + 1), gr, gs)
  {
    SenderWrote(c, x.s, x.sRead, None, gs);
    SenderWrote(c, t.p, x.sRead + 1, None, gs);
  }

  lemma PlainStep(x: Sys, t: Step)
    requires Enabled(x, ToSender) && Plain(x.s, x.r.out[x.sRead], t)
    ensures SenderStep(x) == x.(s := t.p, sEnd := t.r, sRead := x.sRead + 1)
  {
  }

  lemma PlainJoint(c: Plan, x: Sys, t: Step, gr: Standing, gs: Standing)
    requires HonestFiles(c.sEnv, c.rEnv) && Joint(c, x, gr, gs) && Enabled(x, ToSender) && x.sRead < 7
    requires Plain(x.s, x.r.out[x.sRead], t) && SenderInv(c, t.p, x.sRead + 1, None, gs)
    ensures Joint(c, SenderStep(x), gr, gs)
  {
    PlainStep(x, t);
    PlainKept(c, x.s, x.r.out[x.sRead], t);
    EarlyJoins(c, x, t, gr, gs);
  }

  lemma ClearAnswerJoint(c: Plan, x: Sys, gr: Standing, gs: Standing)
    requires Planned(c) && Joint(c, x, gr, gs) && Enabled(x, ToSender) && x.sRead < 2
    requires Answered(c, x.r, x.sRead)
    ensures O.FilesOk(x.s.st.files) && Joint(c, SenderStep(x), gr, gs)
  {
    var t := ClearAnswer(c, x.s, x.r, x.sRead);
    PlainJoint(c, x, t, gr, gs);
  }

  lemma PairingAnswerJoint(c: Plan, x: Sys, gr: Standing, gs: Standing)
    requires ScriptedMail(c) && HonestChannel(c.sEnv, c.rEnv) && HonestMail(c) && HonestFiles(c.sEnv, c.rEnv)
    requires Joint(c, x, gr, gs) && Enabled(x, ToSender) && 2 <= x.sRead < 7
    requires Answered(c, x.r, x.sRead)
    ensures O.FilesOk(x.s.st.files) && Joint(c, SenderStep(x), gr, gs)
  {
    var wire, l := x.r.out[x.sRead], x.sRead - 2;
    PairingFilesOk(c, x.s, l);
    PairingAnswer(c, x.s, x.r, l);
    PairingSecured(c, x.s, l);
    PlainSecure(x.s, wire, O.OnSecure(x.s, wire));
    PlainJoint(c, x, O.OnSecure(x.s, wire), gr, gs);
  }

  lemma ConsentKept(s: Peer)
    requires OutboundSafety.Inv(s) && s.st.state.SentIntroduction?
    ensures OutboundSafety.LoopInv(O.BeginSending(Counted(s)))
  {
    OutboundSafety.UnmovedInv(s, Counted(s));
    OutboundSafety.BeginLoop(Counted(s));
  }

  /** When the acceptance arrives, the receiver has read all there is. */
  lemma AllReadBefore(c: Plan, x: Sys, gr: Standing, gs: Standing)
    requires ReceiverInv(c, x.r, x.rRead, true, gr) && SenderInv(c, x.s, 7, None, gs) && x.rRead <= |x.s.out|
    ensures x.rRead == 10 && |x.s.sent| == 6 && |x.r.out| >= 8
  {
    SenderWrote(c, x.s, 7, None, gs);
    ReceiverWrote(c, x.r, x.rRead, true, gr);
  }

  lemma ConsentLinked(c: Plan, x: Sys, b: Peer, job: seq<int>, gr: Standing, gs: Standing)
    requires Linked(c, x, gr, gs) && x.sRead == 7 && x.accepted && x.rRead == 10 && |x.r.out| >= 8
    requires b.out == x.s.out && |b.sent| == 6
    ensures Linked(c, x.(s := b, job := Some(job), sRead := 8), gr, Zero(Offered(c.sEnv)))
  {
    assert b.sent[x.rRead - 4..] == [];
  }

  lemma ConsentJoins(c: Plan, x: Sys, b: Peer, job: seq<int>, gr: Standing, gs: Standing)
    requires Joint(c, x, gr, gs) && x.sRead == 7 < |x.r.out| && x.accepted
    requires SenderSending(c, b, job, Zero(Offered(c.sEnv))) && OutboundSafety.LoopInv(b)
    requires b.out == x.s.out && b.sent == x.s.sent
    ensures Joint(c, x.(s := b, job := Some(job), sRead := 8), gr, Zero(Offered(c.sEnv)))
  {
    AllReadBefore(c, x, gr, gs);
    ConsentLinked(c, x, b, job, gr, gs);
  }

  lemma ConsentStep(x: Sys, b: Peer)
    requires Enabled(x, ToSender) && O.FilesOk(x.s.st.files)
    requires O.Consented(x.s, x.r.out[x.sRead]) == Some(Counted(x.s)) && b == O.BeginSending(Counted(x.s))
    ensures SenderStep(x) == x.(s := b, job := Some(b.env.tape.order(b.st.files.Keys)), sRead := x.sRead + 1)
  {
  }

  lemma ConsentJoint(c: Plan, x: Sys, gr: Standing, gs: Standing)
    requires Planned(c) && Joint(c, x, gr, gs) && Enabled(x, ToSender) && x.sRead == 7 && x.accepted
    requires Answered(c, x.r, 7)
    ensures O.FilesOk(x.s.st.files) && Joint(c, SenderStep(x), gr, Zero(Offered(c.sEnv)))
  {
    ConsentArrives(c, x.s, x.r);
    ConsentKept(x.s);
    var b := O.BeginSending(Counted(x.s));
    ConsentStep(x, b);
    ConsentJoins(c, x, b, b.env.tape.order(b.st.files.Keys), gr, gs);
  }

  lemma DoneCounts(c: Plan, s: Peer, n: nat, g: Standing)
    requires SenderInv(c, s, n, None, g) && n >= 8 && OutboundSafety.Inv(s)
    ensures SenderInv(c, Counted(s), n + 1, None, g) && OutboundSafety.Inv(Counted(s))
    ensures Counted(s).sent == s.sent && Counted(s).out == s.out
  {
    OutboundSafety.UnmovedInv(s, Counted(s));
  }

  lemma DoneJoins(c: Plan, x: Sys, gr: Standing, gs: Standing)
    requires Joint(c, x, gr, gs) && 8 <= x.sRead < |x.r.out| && x.job.None?
    ensures Joint(c, x.(s := Counted(x.s), sRead := x.sRead + 1), gr, gs)
  {
    DoneCounts(c, x.s, x.sRead, gs);
  }

  /** A goodbye changes nothing but the count of messages read. */
  lemma GoodbyePlain(x: Sys)
    requires Enabled(x, ToSender) && x.s.st.state.Finished? && Fits(x.r.out[x.sRead]) && O.FilesOk(x.s.st.files)
    requires ReceiveSecure(x.s, x.r.out[x.sRead]) == Incoming(Counted(x.s), Ok, Disconnection)
    ensures SenderStep(x) == x.(s := Counted(x.s), sRead := x.sRead + 1)
  {
    assert O.OnV1(Counted(x.s), Disconnection) == Step(Counted(x.s), Ok);
    PlainSecure(x.s, x.r.out[x.sRead], Step(Counted(x.s), Ok));
    PlainStep(x, Step(Counted(x.s), Ok));
  }

  lemma GoodbyeHeard(c: Plan, s: Peer, r: Peer, n: nat, g: Standing)
    requires HonestChannel(c.sEnv, c.rEnv) && n >= 8 && Answered(c, r, n) && SenderDone(c, s, n - 2, g)
    ensures s.st.state.Finished? && O.FilesOk(s.st.files)
    ensures Fits(r.out[n]) && ReceiveSecure(s, r.out[n]) == Incoming(Counted(s), Ok, Disconnection)
  {
    GoodbyeRead(c, s, r, n - 2, g);
  }

  lemma GoodbyeStep(c: Plan, x: Sys, gs: Standing)
    requires HonestChannel(c.sEnv, c.rEnv) && Enabled(x, ToSender) && x.sRead >= 8 && Answered(c, x.r, x.sRead)
    requires SenderDone(c, x.s, x.sRead - 2, gs)
    ensures O.FilesOk(x.s.st.files) && SenderStep(x) == x.(s := Counted(x.s), sRead := x.sRead + 1)
  {
    GoodbyeHeard(c, x.s, x.r, x.sRead, gs);
    GoodbyePlain(x);
  }

  lemma GoodbyeJoint(c: Plan, x: Sys, gr: Standing, gs: Standing)
    requires HonestChannel(c.sEnv, c.rEnv) && Joint(c, x, gr, gs) && Enabled(x, ToSender) && x.sRead >= 8
    requires Answered(c, x.r, x.sRead)
    ensures O.FilesOk(x.s.st.files) && SenderStep(x) == x.(s := Counted(x.s), sRead := x.sRead + 1)
    ensures Joint(c, SenderStep(x), gr, gs)
  {
    GoodbyeStep(c, x, gs);
    DoneJoins(c, x, gr, gs);
  }

  lemma SenderStepJoint(c: Plan, x: Sys, gr: Standing, gs: Standing) returns (h: Standing)
    requires Planned(c) && Joint(c, x, gr, gs) && Fitting(x) && Enabled(x, ToSender)
    ensures O.FilesOk(x.s.st.files) && Joint(c, SenderStep(x), gr, h)
  {
    NextAnswered(c, x.r, x.rRead, x.accepted, gr, x.sRead);
    h := gs;
    if x.sRead < 2 {
      ClearAnswerJoint(c, x, gr, gs);
    } else if x.sRead < 7 {
      PairingAnswerJoint(c, x, gr, gs);
    } else if x.sRead == 7 {
      ConsentJoint(c, x, gr, gs);
      h := Zero(Offered(c.sEnv));
    } else {
      GoodbyeJoint(c, x, gr, gs);
    }
  }

  // --- The sender's turns ----------------------------------------------------------------------------------

  /** More frames from the sender extend what plays. */
  lemma {:induction false} PlayMore(
    files: Files, s: Peer, q: Peer, k: nat, frames: seq<OfflineFrame>, gr: Standing, gs: Standing, h: Standing)
    requires k <= |s.sent| && Play(files, s.sent[k..], gr) == Some(gs)
    requires q.sent == s.sent + frames && Play(files, frames, gs) == Some(h)
    ensures Play(files, q.sent[k..], gr) == Some(h)
  {
    assert q.sent[k..] == s.sent[k..] + frames;
    PlayAppend(files, s.sent[k..], frames, gr);
  }

  lemma {:induction false} TurnJoins(
    c: Plan, x: Sys, y: Sys, gr: Standing, gs: Standing, h: Standing, frames: seq<OfflineFrame>)
    requires Joint(c, x, gr, gs) && x.job.Some? && y == x.(s := y.s, job := y.job)
    requires SenderInv(c, y.s, 8, y.job, h) && Kept(y.s, y.job)
    requires x.s.out <= y.s.out && y.s.sent == x.s.sent + frames && Play(Offered(c.sEnv), frames, gs) == Some(h)
    ensures Joint(c, y, gr, h)
  {
    PlayMore(Offered(c.sEnv), x.s, y.s, x.rRead - 4, frames, gr, gs, h);
  }

  lemma TurnStepJoint(c: Plan, x: Sys, gr: Standing, gs: Standing) returns (h: Standing)
    requires Joint(c, x, gr, gs) && Enabled(x, SenderTurn)
    ensures O.FilesOk(x.s.st.files) && Joint(c, TurnStep(x), gr, h)
  {
    var job := x.job.value;
    SenderFilesOk(Offered(c.sEnv), x.s, job, gs);
    if |job| == 0 {
      SendingEnds(c, x.s, gs);
      OutboundSafety.FinishSafe(x.s);
      h := gs;
      TurnJoins(c, x, TurnStep(x), gr, gs, h, [GOODBYE]);
    } else {
      var frames: seq<OfflineFrame>;
      frames, h := TurnSends(c, x.s, job, gs);
      OutboundSafety.TurnLoop(x.s, job);
      TurnJoins(c, x, TurnStep(x), gr, gs, h, frames);
    }
  }
}
