/** The composed system when things go wrong: either user may cancel, the receiving user may decline, any I/O may
    fail, the connection may break, and a side whose peer has gone finds its stream at an end. */
module SessionDisruptions {
  import opened Wrappers
  import opened Messages
  import opened Libraries
  import opened SecureChannel
  import opened Peers
  import opened Histories
  import opened Sessions
  import opened SessionHandshake
  import opened Delivery
  import opened ChannelOrder
  import opened Integrity
  import SessionRuns
  import I = Inbound
  import O = Outbound
  import InboundSafety
  import OutboundSafety
  import Manager
  import EndpointInfo
  import PinCode
  import PointCodec

  // --- The transition relation ---------------------------------------------------------------------

  datatype Turnabout =
    | Usual(move: Move)                     // a move of an undisturbed session
    | Declines(action: ChannelAction)       // the receiving user rejects or cancels
    | Cancels                               // the sending user cancels
    | SenderLeft                            // the sender reads the end of the stream
    | ReceiverLeft                          // the receiver does
    | SenderCut                             // the sender's connection breaks
    | ReceiverCut                           // the receiver's does

  /** Each side's I/O may fail for good after any number of operations. */
  function Start(c: Config, sIo: Option<nat>, rIo: Option<nat>): Sys {
    var s := OutboundSafety.Opened(c.sEnv, sIo);
    Sys(s.p, I.Start(c.rEnv, rIo, c.names), 0, 0, None, false, s.r, Ok)
  }

  predicate Possible(x: Sys, t: Turnabout) {
    match t
    case Usual(m) => Enabled(x, m)
    case Declines(action) => x.rEnd.Ok? && x.r.told != [] && !action.AcceptTransfer?
    case Cancels => x.sEnd.Ok? && x.job.None? && x.s.told != []
    case SenderLeft => x.sEnd.Ok? && x.job.None? && x.rEnd.Err? && x.sRead >= |x.r.out|
    case ReceiverLeft => x.rEnd.Ok? && x.sEnd.Err? && x.rRead >= |x.s.out|
    case SenderCut => x.sEnd.Ok? && x.job.None?
    case ReceiverCut => x.rEnd.Ok?
  }

  function ReceiverGets(x: Sys, e: Event): Sys {
    var s := I.Handle(x.r, e);
    x.(r := s.p, rEnd := s.r)
  }

  ghost function SenderGets(x: Sys, e: Event): Sys
    requires O.FilesOk(x.s.st.files)
  {
    var s := O.Handle(x.s, e);
    x.(s := s.p, sEnd := s.r)
  }

  ghost function Then(x: Sys, t: Turnabout): Sys
    requires Possible(x, t) && (x.sEnd.Ok? ==> O.FilesOk(x.s.st.files))
  {
    match t
    case Usual(ToReceiver) => ReceiverStep(x)
    case Usual(ToSender) => SenderStep(x)
    case Usual(SenderTurn) => TurnStep(x)
    case Usual(UserAccepts) => AcceptStep(x)
    case Declines(action) => ReceiverGets(x, Front(x.r.env.id, action))
    case Cancels => SenderGets(x, Front(x.s.env.id, CancelTransfer))
    case SenderLeft => SenderGets(x, Closed)
    case ReceiverLeft => ReceiverGets(x, Closed)
    case SenderCut => SenderGets(x, Closed)
    case ReceiverCut => ReceiverGets(x, Closed)
  }

  ghost function Next(x: Sys, t: Turnabout): Option<Sys> {
    if Possible(x, t) && (x.sEnd.Ok? ==> O.FilesOk(x.s.st.files)) then Some(Then(x, t)) else None
  }

  // --- Each side's clear messages and keys -----------------------------------------------------------

  /** The sender's clear messages. */
  function Head(c: Plan): (head: seq<Bytes>)
    ensures |head| == 4
  {
    [c.script.request, c.script.clientInit, c.script.finish, c.script.accept]
  }

  ghost predicate SenderStarted(c: Plan, s: Peer) {
    && s.st.state.SentUkeyClientInit? && s.keys.None? && s.st.serverSeq == 0
    && s.out == Head(c)[..2] && s.sent == []
    && s.st.hs.privateKey == Some(c.sEnv.tape.privateKey)
    && s.st.hs.clientInit == Some(c.script.clientInit)
    && s.st.hs.clientFinish == Some(c.script.finish)
  }

  /** The sender has written no more than it should: the clear messages, then its frames. */
  ghost predicate SenderWrote(c: Plan, s: Peer, end: Outcome) {
    match s.keys
    case None => s.sent == [] && s.out <= Head(c)[..2]
    case Some(keys) =>
      && keys == O.ClientKeys(c.script.schedule)
      && (Lined(s, Head(c)) || (end.Err? && s.sent == [] && s.out <= Head(c)))
  }

  /** The sender after n messages. */
  ghost predicate SenderClean(c: Plan, s: Peer, end: Outcome, n: nat) {
    && s.env == c.sEnv && SenderWrote(c, s, end)
    && (end.Ok? ==>
          if n == 0 then SenderStarted(c, s)
          else s.keys.Some? && s.st.serverSeq == |s.sent| && Rank(s.st.state) >= 3)
  }

  /** The receiver after n messages. */
  ghost predicate ReceiverClean(c: Plan, r: Peer, end: Outcome, n: nat) {
    && r.env == c.rEnv && (r.out != [] ==> r.out[0] == c.script.serverInit)
    && (end.Ok? ==>
          if n < 4 then ReceiverStarted(c, r, n)
          else
            && Rank(r.st.state) >= 4 && r.keys == Some(I.ServerKeys(c.script.schedule))
            && r.st.clientSeq == n - 4 && r.out != [])
  }

  ghost predicate ReceiverStarted(c: Plan, r: Peer, n: nat) {
    && r.st.clientSeq == 0
    && match n
       case 0 => r.st.state.Initial? && r.out == []
       case 1 => r.st.state.ReceivedConnectionRequest? && r.out == []
       case 2 =>
         && r.st.state.SentUkeyServerInit? && r.out == [c.script.serverInit]
         && r.st.hs.privateKey == Some(c.rEnv.tape.privateKey)
         && r.st.hs.serverInit == Some(c.script.serverInit)
         && r.st.hs.clientInit == Some(c.script.clientInit)
       case _ =>
         && r.st.state.ReceivedUkeyClientFinish? && r.out == [c.script.serverInit]
         && r.keys == Some(I.ServerKeys(c.script.schedule))
  }

  lemma OpeningClean(c: Plan, io: Option<nat>)
    requires ScriptedHello(c)
    ensures var s := OutboundSafety.Opened(c.sEnv, io); SenderClean(c, s.p, s.r, 0)
  {
  }

  /** What the receiver reads next while the session is in the clear. */
  lemma ClearMessage(c: Plan, s: Peer, end: Outcome, n: nat)
    requires SenderWrote(c, s, end) && n < |s.out|
    ensures n < 4 ==> s.out[n] == Head(c)[n]
    ensures n >= 4 ==> s.keys == Some(O.ClientKeys(c.script.schedule)) && Lined(s, Head(c))
  {
    if s.keys.Some? && Lined(s, Head(c)) && n < 4 {
      LinedSealed(s, Head(c));
      assert Head(c) <= s.out;
    }
  }

  // --- The receiver's clear messages -------------------------------------------------------------------

  lemma RequestClean(c: Plan, r: Peer)
    requires ReceiverClean(c, r, Ok, 0)
    ensures var s := I.OnConnectionRequest(r, c.script.request); ReceiverClean(c, s.p, s.r, 1)
  {
  }

  lemma ClientInitClean(c: Plan, r: Peer)
    requires Drafted(c) && ReceiverClean(c, r, Ok, 1)
    ensures var s := I.OnClientInit(r, c.script.clientInit); ReceiverClean(c, s.p, s.r, 2)
  {
    var m := O.InitMessage(c.sEnv);
    assert c.Lib().decUkey(c.Lib().encUkey(m)) == Some(m);
    var commitments := m.clientInit.value.commitments;
    assert I.Preferred(commitments) == Some(commitments[0]);
  }

  /** The sender's key gives the scripted schedule, or is refused. */
  lemma ReceiverDerivation(c: Plan, r: Peer)
    requires Drafted(c) && r.env == c.rEnv && ReceiverStarted(c, r, 2)
    ensures Derive(r, PublishedKey(c.sEnv)) == Derived(c.script.schedule) || Derive(r, PublishedKey(c.sEnv)).Underived?
  {
    if Sendable(c.Lib().publicKey(c.sEnv.tape.privateKey)) {
      ReceiverDerives(c, r);
    } else {
      UnsendableUnderived(c.sEnv, r);
    }
  }

  /** Either it is refused, or the keys are those of the schedule. */
  ghost predicate Finishes(c: Plan, r: Peer, s: Step) {
    if s.r.Err? then s.p == r
    else
      && s.p.env == r.env && s.p.out == r.out && s.p.st.clientSeq == r.st.clientSeq
      && s.p.st.state.ReceivedUkeyClientFinish? && s.p.keys == Some(I.ServerKeys(c.script.schedule))
  }

  lemma FinishHandledOnce(c: Plan, r: Peer, wire: Bytes, key: PublicKeyMsg)
    requires Derive(r, key) == Derived(c.script.schedule) || Derive(r, key).Underived?
    requires r.env.lib.decUkey(wire) == Some(ClientFinishMsg(Some(ClientFinished(Some(key)))))
    ensures Finishes(c, r, I.OnClientFinish(r, wire))
  {
  }

  lemma FinishesClean(c: Plan, r: Peer, s: Step)
    requires ReceiverClean(c, r, Ok, 2) && Finishes(c, r, s)
    ensures ReceiverClean(c, s.p, s.r, 3)
  {
  }

  lemma FinishClean(c: Plan, r: Peer)
    requires Drafted(c) && ReceiverClean(c, r, Ok, 2)
    ensures var s := I.OnClientFinish(r, c.script.finish); ReceiverClean(c, s.p, s.r, 3)
  {
    var m := O.FinishMessage(c.sEnv);
    assert c.Lib().decUkey(c.Lib().encUkey(m)) == Some(m);
    ReceiverDerivation(c, r);
    FinishHandledOnce(c, r, c.script.finish, PublishedKey(c.sEnv));
    FinishesClean(c, r, I.OnClientFinish(r, c.script.finish));
  }

  /** A step that leaves the receiver's keys and its first message alone. */
  ghost predicate Responds(r: Peer, s: Step) {
    && s.p.env == r.env && s.p.keys == r.keys && s.p.st.clientSeq == r.st.clientSeq && r.out <= s.p.out
    && (s.r.Ok? ==> s.p.st.state.SentConnectionResponse?)
  }

  lemma RespondEffect(r: Peer)
    ensures Responds(r, InboundSafety.Respond(r))
  {
    var s := SendOffline(r, I.ACCEPT_CONNECTION);
    assert r.out <= s.p.out;
    LetterGrows(s.p, PairedKeyEncryptionFrame());
  }

  lemma LetterGrows(p: Peer, frame: ShareFrame)
    ensures p.out <= SendEncrypted(p, frame).p.out
  {
  }

  lemma ResponseEffect(r: Peer, wire: Bytes)
    ensures Responds(r, I.OnConnectionResponse(r, wire))
  {
    InboundSafety.ResponseCases(r, wire);
    RespondEffect(r);
  }

  lemma RespondsClean(c: Plan, r: Peer, s: Step)
    requires ReceiverClean(c, r, Ok, 3) && Responds(r, s)
    ensures ReceiverClean(c, s.p, s.r, 4)
  {
  }

  lemma ResponseClean(c: Plan, r: Peer, wire: Bytes)
    requires ReceiverClean(c, r, Ok, 3)
    ensures var s := I.OnConnectionResponse(r, wire); ReceiverClean(c, s.p, s.r, 4)
  {
    ResponseEffect(r, wire);
    RespondsClean(c, r, I.OnConnectionResponse(r, wire));
  }

  lemma ClearHandled(r: Peer, wire: Bytes)
    ensures var s := I.Handle(r, Frame(wire));
            if !Fits(wire) then s == Fail(r, FrameTooBig)
            else
              match r.st.state
              case Initial => s == I.OnConnectionRequest(r, wire)
              case ReceivedConnectionRequest => s == I.OnClientInit(r, wire)
              case SentUkeyServerInit => s == I.OnClientFinish(r, wire)
              case ReceivedUkeyClientFinish => s == I.OnConnectionResponse(r, wire)
              case _ => true
  {
  }

  lemma ClearClean(c: Plan, r: Peer, n: nat, wire: Bytes)
    requires Drafted(c) && n < 4 && ReceiverClean(c, r, Ok, n) && wire == Head(c)[n]
    ensures var s := I.Handle(r, Frame(wire));
            ReceiverClean(c, s.p, s.r, n + 1) && s.p.disk == r.disk && (s.r.Ok? ==> s.p.st.clientSeq == 0)
  {
    ClearHandled(r, wire);
    if !Fits(wire) {
    } else if n == 0 {
      RequestClean(c, r);
    } else if n == 1 {
      ClientInitClean(c, r);
    } else if n == 2 {
      FinishClean(c, r);
    } else {
      ResponseClean(c, r, wire);
    }
  }

  // --- The sender's messages -----------------------------------------------------------------------------

  lemma SenderDerivation(c: Plan, s: Peer)
    requires Drafted(c) && s.env == c.sEnv && SenderStarted(c, s)
    ensures var d := Derive(OutboundSafety.Noted(s, c.script.serverInit), PublishedKey(c.rEnv));
            d == Derived(c.script.schedule) || d.Underived?
  {
    if Sendable(c.Lib().publicKey(c.rEnv.tape.privateKey)) {
      SenderDerives(c, s);
    } else {
      UnsendableUnderived(c.rEnv, OutboundSafety.Noted(s, c.script.serverInit));
    }
  }

  /** The client finish and the response go out one after the other, as far as I/O goes. */
  lemma FinishWritten(c: Plan, s: Peer)
    requires s.out == Head(c)[..2] && s.st.hs.clientFinish == Some(c.script.finish)
    requires c.script.accept == s.env.lib.encOffline(O.ACCEPT_CONNECTION)
    ensures var t := O.SendFinish(s);
            t.p.out <= Head(c) && (t.r.Ok? ==> t.p.out == Head(c)) && (t.r.Ok? || t.r.Err?)
  {
  }

  /** What the sender does with the receiver's key. */
  ghost predicate Keyed(c: Plan, s: Peer, t: Step) {
    && t.p.env == s.env && t.p.sent == s.sent && t.p.st.files == s.st.files && t.p.st.serverSeq == s.st.serverSeq
    && if t.p.keys.None? then t.r.Err? && t.p.out == s.out
       else
         && t.p.keys == Some(O.ClientKeys(c.script.schedule)) && t.p.out <= Head(c)
         && (t.r.Ok? ==> t.p.out == Head(c))
  }

  lemma ServerInitKeyed(c: Plan, s: Peer, key: PublicKeyMsg, random: Bytes)
    requires s.env == c.sEnv && SenderStarted(c, s) && c.script.accept == c.Lib().encOffline(O.ACCEPT_CONNECTION)
    requires |random| == 32
    requires var d := Derive(OutboundSafety.Noted(s, c.script.serverInit), key);
             d == Derived(c.script.schedule) || d.Underived?
    ensures var m := ServerInitMsg(Some(ServerInit(1, random, P256Sha512, Some(key))));
            Keyed(c, s, O.ProcessServerInit(OutboundSafety.Noted(s, c.script.serverInit), m))
  {
    var q := OutboundSafety.Noted(s, c.script.serverInit);
    var f := O.Finalize(q, key);
    if f.r.Ok? {
      FinishWritten(c, f.p);
    }
  }

  lemma KeyedClean(c: Plan, s: Peer, t: Step, n: nat)
    requires SenderClean(c, s, Ok, 0) && Keyed(c, s, t) && n > 0
    ensures SenderClean(c, if t.r.Err? then t.p else Enter(t.p, SentUkeyClientFinish, false), t.r, n)
  {
    if t.r.Ok? {
      assert Wires(c.sEnv, t.p.keys.value, []) == [] && Head(c) + [] == Head(c);
    }
  }

  lemma ServerInitClean(c: Plan, s: Peer, n: nat)
    requires Drafted(c) && SenderClean(c, s, Ok, 0) && n > 0
    ensures var t := O.OnServerInit(s, c.script.serverInit);
            SenderClean(c, t.p, t.r, n) && t.p.sent == s.sent && t.p.st.files == s.st.files
  {
    var m := I.ServerInitMessage(c.rEnv);
    assert c.Lib().decUkey(c.Lib().encUkey(m)) == Some(m);
    SenderDerivation(c, s);
    ServerInitKeyed(c, s, PublishedKey(c.rEnv), c.rEnv.tape.random);
    KeyedClean(c, s, O.ProcessServerInit(OutboundSafety.Noted(s, c.script.serverInit), m), n);
  }

  /** What any event leaves alone, once the sender has its keys. */
  ghost predicate Stays(p: Peer, q: Peer) {
    && q.env == p.env && q.keys == p.keys && q.st.pin == p.st.pin
    && p.sent <= q.sent && Rank(q.st.state) >= 3
  }

  lemma KeptStays(p: Peer, q: Peer)
    requires Kept(p, q)
    ensures Stays(p, q)
  {
  }

  lemma ResponseStays(p: Peer, wire: Bytes)
    requires Rank(p.st.state) >= 3
    ensures Stays(p, O.OnConnectionResponse(p, wire).p)
  {
    Integrity.ResponseCases(p, wire);
    var s := SendEncrypted(p, PairedKeyEncryptionFrame());
    assert p.sent <= s.p.sent;
  }

  lemma SecureStays(p: Peer, wire: Bytes)
    requires Rank(p.st.state) >= 4 && O.FilesOk(p.st.files)
    ensures Stays(p, O.OnSecure(p, wire).p)
  {
    var i := ReceiveSecure(p, wire);
    if i.r.Ok? {
      SenderFrameKeeps(i.p, i.frame);
    }
  }

  lemma WireStays(p: Peer, wire: Bytes)
    requires Rank(p.st.state) >= 3 && OutboundSafety.Inv(p)
    ensures Stays(p, O.Handle(p, Frame(wire)).p)
  {
    Integrity.WireCases(p, wire);
    if p.st.state.SentUkeyClientFinish? {
      ResponseStays(p, wire);
    } else {
      SecureStays(p, wire);
    }
  }

  lemma FrontStays(p: Peer, own: string, action: ChannelAction)
    requires Rank(p.st.state) >= 3 && O.FilesOk(p.st.files)
    ensures Stays(p, O.Handle(p, Front(own, action)).p)
  {
    EndKeeps(p, Cancelled);
  }

  // --- The invariant -----------------------------------------------------------------------------------

  /** Each side's messages are what they should be. */
  ghost predicate Clean(c: Plan, x: Sys) {
    && SenderClean(c, x.s, x.sEnd, x.sRead) && ReceiverClean(c, x.r, x.rEnd, x.rRead)
    && (x.job.Some? ==> x.sRead >= 1)
  }

  /** The file goes through: what is written is the beginning of what was sent, and that of what is offered. */
  ghost predicate Through(x: Sys, id: int) {
    SentFor(x.s, id) && KeepsUp(x.s, Step(x.r, x.rEnd), id)
  }

  ghost predicate SenderGuarded(s: Peer, end: Outcome, job: Option<seq<int>>) {
    && (Rank(s.st.state) < 2 ==> s.told == [])
    && if end.Err? then OutboundSafety.Closing(Step(s, end)) else SessionRuns.Kept(s, job)
  }

  ghost predicate ReceiverGuarded(r: Peer, end: Outcome) {
    if end.Err? then InboundSafety.Closing(Step(r, end)) else InboundSafety.Inv(r)
  }

  ghost predicate Sane(c: Plan, x: Sys) {
    Clean(c, x) && SenderGuarded(x.s, x.sEnd, x.job) && ReceiverGuarded(x.r, x.rEnd)
  }

  lemma StartSane(c: Plan, sIo: Option<nat>, rIo: Option<nat>)
    requires Drafted(c)
    ensures Sane(c, Start(c.Sides(), sIo, rIo))
  {
    OpeningClean(c, sIo);
    InboundSafety.StartInv(c.rEnv, rIo, c.names);
    if OutboundSafety.Opened(c.sEnv, sIo).r.Ok? {
      OutboundSafety.OpenedInv(c.sEnv, sIo);
    } else {
      OpeningFails(c.sEnv, sIo);
    }
  }

  lemma OpeningFails(env: Env, io: Option<nat>)
    requires OutboundSafety.Opened(env, io).r.Err?
    ensures var s := OutboundSafety.Opened(env, io); SenderGuarded(s.p, s.r, None)
  {
  }

  lemma StartThrough(c: Plan, sIo: Option<nat>, rIo: Option<nat>, id: int)
    ensures Through(Start(c.Sides(), sIo, rIo), id)
  {
  }

  // --- The receiver's steps --------------------------------------------------------------------------------

  lemma ReceiverKept(r: Peer, e: Event)
    requires InboundSafety.Inv(r) && InboundSafety.Grounded(r.env) && InboundSafety.Sensible(r, e)
    ensures var s := I.Handle(r, e); ReceiverGuarded(s.p, s.r)
  {
    InboundSafety.HandleSafe(r, e);
  }

  /** From the fifth message on, the order theorems apply. */
  lemma Secure(c: Plan, s: Peer, end: Outcome, r: Peer, n: nat)
    requires HonestChannel(c.sEnv, c.rEnv) && SenderWrote(c, s, end) && s.env == c.sEnv
    requires ReceiverClean(c, r, Ok, n) && 4 <= n < |s.out|
    ensures Sound(s, 4, r) && n - 4 < |s.sent|
  {
    ClearMessage(c, s, end, n);
    LinedSealed(s, Head(c));
  }

  lemma KeptClean(c: Plan, r: Peer, n: nat, q: Peer, s: Step, m: nat)
    requires ReceiverClean(c, r, Ok, n) && 4 <= n && 4 <= m
    requires Kept(q, s.p) && q == r.(st := r.st.(clientSeq := m - 4, buffers := q.st.buffers))
    ensures ReceiverClean(c, s.p, s.r, m)
  {
    assert s.p.out[0] == r.out[0];
  }

  lemma ReadsClean(c: Plan, s: Peer, r: Peer, n: nat, t: Step)
    requires 4 <= n && n - 4 < |s.sent| && ReceiverClean(c, r, Ok, n) && Reads(s, r, n - 4, t)
    ensures ReceiverClean(c, t.p, t.r, n + 1)
  {
    if s.sent[n - 4].v1.Some? {
      KeptClean(c, r, n, Fed(Counted(r), s.sent[n - 4].v1.value), t, n + 1);
    }
  }

  lemma SecureClean(c: Plan, s: Peer, r: Peer, n: nat)
    requires Sound(s, 4, r) && 4 <= n && n - 4 < |s.sent| && ReceiverClean(c, r, Ok, n)
    ensures var t := I.Handle(r, Frame(s.out[n])); ReceiverClean(c, t.p, t.r, n + 1)
  {
    if Fits(s.out[n]) {
      ReceiverReads(s, 4, r, n - 4);
      ReadsClean(c, s, r, n, I.Handle(r, Frame(s.out[n])));
    }
  }

  lemma ReceiverReadsClean(c: Plan, x: Sys)
    requires Drafted(c) && Clean(c, x) && x.rEnd.Ok? && x.rRead < |x.s.out|
    ensures var t := I.Handle(x.r, Frame(x.s.out[x.rRead])); ReceiverClean(c, t.p, t.r, x.rRead + 1)
  {
    ClearMessage(c, x.s, x.sEnd, x.rRead);
    if x.rRead < 4 {
      ClearClean(c, x.r, x.rRead, x.s.out[x.rRead]);
    } else {
      Secure(c, x.s, x.sEnd, x.r, x.rRead);
      SecureClean(c, x.s, x.r, x.rRead);
    }
  }

  lemma ReadThrough(s: Peer, r: Peer, n: nat, id: int)
    requires Sound(s, 4, r) && 4 <= n && n - 4 < |s.sent| && r.st.clientSeq == n - 4
    requires InboundSafety.Inv(r) && KeepsUp(s, Step(r, Ok), id)
    ensures KeepsUp(s, I.Handle(r, Frame(s.out[n])), id)
  {
    if Fits(s.out[n]) {
      MessageKeepsUp(s, 4, r, n - 4, id);
    }
  }

  lemma SameDiskThrough(s: Peer, r: Peer, t: Step, id: int)
    requires KeepsUp(s, Step(r, Ok), id) && t.p.disk == r.disk && (t.r.Ok? ==> t.p.st.clientSeq == r.st.clientSeq)
    ensures KeepsUp(s, t, id)
  {
  }

  lemma ReceiverReadsThrough(c: Plan, x: Sys, id: int)
    requires Drafted(c) && Sane(c, x) && Through(x, id) && x.rEnd.Ok? && x.rRead < |x.s.out|
    ensures KeepsUp(x.s, I.Handle(x.r, Frame(x.s.out[x.rRead])), id)
  {
    ClearMessage(c, x.s, x.sEnd, x.rRead);
    if x.rRead < 4 {
      ClearClean(c, x.r, x.rRead, x.s.out[x.rRead]);
      SameDiskThrough(x.s, x.r, I.Handle(x.r, Frame(x.s.out[x.rRead])), id);
    } else {
      Secure(c, x.s, x.sEnd, x.r, x.rRead);
      ReadThrough(x.s, x.r, x.rRead, id);
    }
  }

  /** The receiving user acts only once the receiver has spoken, in the secured part of the session. */
  lemma SpokenSecure(c: Plan, r: Peer, n: nat)
    requires ReceiverClean(c, r, Ok, n) && InboundSafety.Inv(r) && r.told != []
    ensures n >= 4 && Rank(r.st.state) >= 7
  {
  }

  lemma ReceiverActsClean(c: Plan, r: Peer, n: nat, action: ChannelAction)
    requires ReceiverClean(c, r, Ok, n) && n >= 4
    ensures var t := I.Handle(r, Front(r.env.id, action)); ReceiverClean(c, t.p, t.r, n)
  {
    ReceiverActs(r, r.env.id, action);
    KeptClean(c, r, n, r, I.Handle(r, Front(r.env.id, action)), n);
  }

  // --- The sender's steps ----------------------------------------------------------------------------------

  lemma {:induction false} Grown(s: Peer, more: Peer, t: Step, id: int)
    requires s.sent <= more.sent && KeepsUp(s, t, id)
    ensures KeepsUp(more, t, id)
  {
    var k := |s.sent|;
    assert more.sent[..k] == s.sent;
    BytesForPrefix(more.sent, k, id);
    if t.r.Ok? {
      var n := t.p.st.clientSeq;
      assert more.sent[..n] == s.sent[..n];
    }
  }

  lemma SenderFair(c: Plan, s: Peer, n: nat, id: int)
    requires SenderClean(c, s, Ok, n) && n >= 1 && SentFor(s, id)
    ensures Fair(s, Head(c), id) && Rank(s.st.state) >= 3
  {
  }

  /** The sender after a step that kept its traffic in order. */
  lemma EndsClean(c: Plan, s: Peer, n: nat, t: Step, m: nat, id: int)
    requires SenderClean(c, s, Ok, n) && n >= 1 && m >= 1 && Ends(t, Head(c), id) && Stays(s, t.p)
    ensures SenderClean(c, t.p, t.r, m)
  {
  }

  lemma SenderGuardedAfter(s: Peer, e: Event)
    requires OutboundSafety.Inv(s) && OutboundSafety.DistinctIds(s.env) && OutboundSafety.Sensible(s, e)
    ensures var t := O.Handle(s, e); SenderGuarded(t.p, t.r, None)
  {
    OutboundSafety.HandleSafe(s, e);
    AwakeAtLeastTwo(s);
  }

  lemma AwakeAtLeastTwo(s: Peer)
    requires OutboundSafety.Inv(s)
    ensures Rank(s.st.state) >= 2
  {
  }

  lemma EventStays(s: Peer, e: Event)
    requires Rank(s.st.state) >= 3 && OutboundSafety.Inv(s)
    ensures Stays(s, O.Handle(s, e).p)
  {
    match e {
      case Frame(wire) => WireStays(s, wire);
      case Front(own, action) => FrontStays(s, own, action);
      case Closed =>
    }
  }

  /** Any event, once the sender has its keys. */
  lemma SenderTakes(c: Plan, s: Peer, n: nat, e: Event, m: nat, id: int)
    requires Drafted(c) && SenderClean(c, s, Ok, n) && n >= 1 && m >= 1 && OutboundSafety.Inv(s) && SentFor(s, id)
    ensures var t := O.Handle(s, e);
            SenderClean(c, t.p, t.r, m) && SentFor(t.p, id) && s.sent <= t.p.sent
  {
    SenderFair(c, s, n, id);
    EventEnds(s, Head(c), e, id);
    EventStays(s, e);
    EndsClean(c, s, n, O.Handle(s, e), m, id);
  }

  lemma Unsent(s: Peer, t: Peer, id: int)
    requires SentFor(s, id) && t.sent == s.sent && t.st.files == s.st.files && t.env == s.env
    requires s.st.files == map[] && s.sent == []
    ensures SentFor(t, id)
  {
  }

  lemma InitHandled(s: Peer, wire: Bytes)
    requires O.FilesOk(s.st.files) && s.st.state.SentUkeyClientInit?
    ensures O.Handle(s, Frame(wire)) == if Fits(wire) then O.OnServerInit(s, wire) else Fail(s, FrameTooBig)
  {
  }

  lemma SenderHears(c: Plan, s: Peer, id: int)
    requires Drafted(c) && SenderClean(c, s, Ok, 0) && SentFor(s, id) && s.st.files == map[]
    ensures var t := O.Handle(s, Frame(c.script.serverInit));
            SenderClean(c, t.p, t.r, 1) && SentFor(t.p, id) && t.p.sent == s.sent
  {
    ServerInitClean(c, s, 1);
    InitHandled(s, c.script.serverInit);
    Unsent(s, O.OnServerInit(s, c.script.serverInit).p, id);
  }

  lemma LoopGuarded(s: Peer, end: Outcome, job: Option<seq<int>>)
    requires OutboundSafety.LoopInv(s) && (end.Ok? || end == Err(Io)) && job.Some?
    ensures SenderGuarded(s, end, job)
  {
  }

  lemma LoopAwake(s: Peer)
    requires OutboundSafety.LoopInv(s)
    ensures O.FilesOk(s.st.files) && s.st.state.SendingFiles? && Rank(s.st.state) == 8
  {
  }

  lemma TurnGuarded(s: Peer, job: seq<int>)
    requires OutboundSafety.LoopInv(s) && |job| > 0
    ensures var t := O.Turn(s, job); SenderGuarded(t.p, t.r, Some(t.job))
  {
    OutboundSafety.TurnLoop(s, job);
    LoopGuarded(O.Turn(s, job).p, O.Turn(s, job).r, Some(O.Turn(s, job).job));
  }

  lemma TurnStays(s: Peer, job: seq<int>)
    requires OutboundSafety.LoopInv(s) && |job| > 0
    ensures Stays(s, O.Turn(s, job).p)
  {
    LoopAwake(s);
    TurnKeeps(s, job);
    KeptStays(s, O.Turn(s, job).p);
  }

  /** One turn of the loops. */
  lemma TurnTakes(c: Plan, s: Peer, n: nat, job: seq<int>, m: nat, id: int)
    requires SenderClean(c, s, Ok, n) && n >= 1 && m >= 1 && OutboundSafety.LoopInv(s) && SentFor(s, id) && |job| > 0
    ensures var t := O.Turn(s, job);
            SenderClean(c, t.p, t.r, m) && SentFor(t.p, id) && s.sent <= t.p.sent
  {
    var t := O.Turn(s, job);
    LoopAwake(s);
    SenderFair(c, s, n, id);
    TurnEnds(s, Head(c), job, id);
    TurnStays(s, job);
    EndsClean(c, s, n, Step(t.p, t.r), m, id);
  }

  lemma FinishGuarded(s: Peer)
    requires OutboundSafety.LoopInv(s)
    ensures var t := O.FinishSending(s); SenderGuarded(t.p, t.r, None)
  {
    OutboundSafety.FinishSafe(s);
  }

  lemma FinishStays(s: Peer)
    requires OutboundSafety.LoopInv(s)
    ensures Stays(s, O.FinishSending(s).p)
  {
    LoopAwake(s);
    FinishKeeps(s);
    KeptStays(s, O.FinishSending(s).p);
  }

  /** Their end. */
  lemma FinishTakes(c: Plan, s: Peer, n: nat, m: nat, id: int)
    requires SenderClean(c, s, Ok, n) && n >= 1 && m >= 1 && OutboundSafety.LoopInv(s) && SentFor(s, id)
    ensures var t := O.FinishSending(s);
            SenderClean(c, t.p, t.r, m) && SentFor(t.p, id) && s.sent <= t.p.sent
  {
    LoopAwake(s);
    SenderFair(c, s, n, id);
    FinishEnds(s, Head(c), id);
    FinishStays(s);
    EndsClean(c, s, n, O.FinishSending(s), m, id);
  }

  lemma ConsentedBeside(s: Peer, wire: Bytes)
    requires O.Consented(s, wire).Some?
    ensures var q := O.Consented(s, wire).value;
            s.st.state.SentIntroduction? && OutboundSafety.Unmoved(s, q) && Beside(s, q) && q.st.state == s.st.state
  {
  }

  lemma BesideTakes(c: Plan, s: Peer, n: nat, q: Peer, m: nat, id: int)
    requires SenderClean(c, s, Ok, n) && n >= 1 && m >= 1 && SentFor(s, id) && Beside(s, q)
    ensures SenderClean(c, q, Ok, m) && SentFor(q, id) && q.sent == s.sent
  {
  }

  lemma BeginGuarded(s: Peer, wire: Bytes)
    requires OutboundSafety.Inv(s) && O.Consented(s, wire).Some?
    ensures var b := O.BeginSending(O.Consented(s, wire).value);
            OutboundSafety.LoopInv(b) && Beside(s, b)
  {
    var q := O.Consented(s, wire).value;
    ConsentedBeside(s, wire);
    OutboundSafety.UnmovedInv(s, q);
    OutboundSafety.BeginLoop(q);
  }

  // --- Every step ----------------------------------------------------------------------------------------

  lemma FilesFine(x: Sys)
    requires SenderGuarded(x.s, x.sEnd, x.job) && x.sEnd.Ok?
    ensures O.FilesOk(x.s.st.files)
  {
  }

  /** What a step of the receiver has to show. */
  lemma ReceiverTook(c: Plan, x: Sys, y: Sys, id: int)
    requires Sane(c, x) && Through(x, id) && y == x.(r := y.r, rEnd := y.rEnd, rRead := y.rRead, accepted := y.accepted)
    requires ReceiverClean(c, y.r, y.rEnd, y.rRead) && ReceiverGuarded(y.r, y.rEnd)
    requires KeepsUp(x.s, Step(y.r, y.rEnd), id)
    ensures Sane(c, y) && Through(y, id)
  {
  }

  /** What a step of the sender has to show. */
  lemma SenderTook(c: Plan, x: Sys, y: Sys, id: int)
    requires Sane(c, x) && Through(x, id) && y == x.(s := y.s, sEnd := y.sEnd, sRead := y.sRead, job := y.job)
    requires SenderClean(c, y.s, y.sEnd, y.sRead) && SenderGuarded(y.s, y.sEnd, y.job)
    requires SentFor(y.s, id) && x.s.sent <= y.s.sent && (y.job.Some? ==> y.sRead >= 1)
    ensures Sane(c, y) && Through(y, id)
  {
    Grown(x.s, y.s, Step(x.r, x.rEnd), id);
  }

  lemma ToReceiverSane(c: Plan, x: Sys, id: int)
    requires Drafted(c) && Sane(c, x) && Through(x, id) && Enabled(x, ToReceiver)
    ensures Sane(c, ReceiverStep(x)) && Through(ReceiverStep(x), id)
  {
    ReceiverReadsClean(c, x);
    ReceiverReadsThrough(c, x, id);
    ReceiverKept(x.r, Frame(x.s.out[x.rRead]));
    ReceiverTook(c, x, ReceiverStep(x), id);
  }

  lemma FrontSane(c: Plan, x: Sys, action: ChannelAction, id: int)
    requires Drafted(c) && Sane(c, x) && Through(x, id) && x.rEnd.Ok? && x.r.told != []
    requires action.AcceptTransfer? ==> x.r.st.state.WaitingForUserConsent?
    ensures var s := I.Handle(x.r, Front(x.r.env.id, action));
            && ReceiverClean(c, s.p, s.r, x.rRead) && ReceiverGuarded(s.p, s.r) && KeepsUp(x.s, s, id)
  {
    SpokenSecure(c, x.r, x.rRead);
    ReceiverActsClean(c, x.r, x.rRead, action);
    ReceiverKept(x.r, Front(x.r.env.id, action));
    FrontKeepsUp(x.s, x.r, x.r.env.id, action, id);
  }

  lemma AcceptSane(c: Plan, x: Sys, id: int)
    requires Drafted(c) && Sane(c, x) && Through(x, id) && Enabled(x, UserAccepts)
    ensures Sane(c, AcceptStep(x)) && Through(AcceptStep(x), id)
  {
    FrontSane(c, x, AcceptTransfer, id);
    ReceiverTook(c, x, AcceptStep(x), id);
  }

  lemma DeclineSane(c: Plan, x: Sys, action: ChannelAction, id: int)
    requires Drafted(c) && Sane(c, x) && Through(x, id) && Possible(x, Declines(action))
    ensures var y := ReceiverGets(x, Front(x.r.env.id, action)); Sane(c, y) && Through(y, id)
  {
    FrontSane(c, x, action, id);
    ReceiverTook(c, x, ReceiverGets(x, Front(x.r.env.id, action)), id);
  }

  lemma ReceiverLeftSane(c: Plan, x: Sys, id: int)
    requires Drafted(c) && Sane(c, x) && Through(x, id) && x.rEnd.Ok?
    ensures var y := ReceiverGets(x, Closed); Sane(c, y) && Through(y, id)
  {
    ReceiverKept(x.r, Closed);
    ReceiverTook(c, x, ReceiverGets(x, Closed), id);
  }

  lemma SenderTakesSane(c: Plan, x: Sys, e: Event, n: nat, id: int)
    requires Drafted(c) && Sane(c, x) && Through(x, id) && x.sEnd.Ok? && x.job.None? && x.sRead >= 1 && n >= 1
    requires OutboundSafety.Sensible(x.s, e)
    ensures O.FilesOk(x.s.st.files)
    ensures var y := SenderGets(x, e).(sRead := n); Sane(c, y) && Through(y, id)
  {
    SenderTakes(c, x.s, x.sRead, e, n, id);
    SenderGuardedAfter(x.s, e);
    SenderTook(c, x, SenderGets(x, e).(sRead := n), id);
  }

  lemma SenderHearsSane(c: Plan, x: Sys, id: int)
    requires Drafted(c) && Sane(c, x) && Through(x, id) && Enabled(x, ToSender) && x.sRead == 0
    ensures O.FilesOk(x.s.st.files)
    ensures var y := SenderGets(x, Frame(x.r.out[0])).(sRead := 1); Sane(c, y) && Through(y, id)
  {
    SenderHears(c, x.s, id);
    SenderGuardedAfter(x.s, Frame(x.r.out[0]));
    SenderTook(c, x, SenderGets(x, Frame(x.r.out[0])).(sRead := 1), id);
  }

  lemma BeginSane(c: Plan, x: Sys, id: int)
    requires Drafted(c) && Sane(c, x) && Through(x, id) && Enabled(x, ToSender) && x.sRead >= 1
    requires O.Consented(x.s, x.r.out[x.sRead]).Some?
    ensures O.FilesOk(x.s.st.files) && Sane(c, SenderStep(x)) && Through(SenderStep(x), id)
  {
    var b := O.BeginSending(O.Consented(x.s, x.r.out[x.sRead]).value);
    BeginGuarded(x.s, x.r.out[x.sRead]);
    BesideTakes(c, x.s, x.sRead, b, x.sRead + 1, id);
    LoopGuarded(b, Ok, SenderStep(x).job);
    SenderTook(c, x, SenderStep(x), id);
  }

  lemma PlainStep(x: Sys)
    requires Enabled(x, ToSender) && O.FilesOk(x.s.st.files) && O.Consented(x.s, x.r.out[x.sRead]).None?
    ensures SenderStep(x) == SenderGets(x, Frame(x.r.out[x.sRead])).(sRead := x.sRead + 1)
  {
  }

  lemma NotAskedYet(s: Peer, wire: Bytes)
    requires !s.st.state.SentIntroduction?
    ensures O.Consented(s, wire).None?
  {
  }

  lemma ToSenderSane(c: Plan, x: Sys, id: int)
    requires Drafted(c) && Sane(c, x) && Through(x, id) && Enabled(x, ToSender)
    ensures O.FilesOk(x.s.st.files) && Sane(c, SenderStep(x)) && Through(SenderStep(x), id)
  {
    var wire := x.r.out[x.sRead];
    FilesFine(x);
    if x.sRead == 0 {
      NotAskedYet(x.s, wire);
      PlainStep(x);
      SenderHearsSane(c, x, id);
    } else if O.Consented(x.s, wire).Some? {
      BeginSane(c, x, id);
    } else {
      PlainStep(x);
      SenderTakesSane(c, x, Frame(wire), x.sRead + 1, id);
    }
  }

  lemma TurnSane(c: Plan, x: Sys, id: int)
    requires Drafted(c) && Sane(c, x) && Through(x, id) && Enabled(x, SenderTurn)
    ensures O.FilesOk(x.s.st.files) && Sane(c, TurnStep(x)) && Through(TurnStep(x), id)
  {
    var job := x.job.value;
    FilesFine(x);
    if |job| == 0 {
      FinishTakes(c, x.s, x.sRead, x.sRead, id);
      FinishGuarded(x.s);
    } else {
      TurnTakes(c, x.s, x.sRead, job, x.sRead, id);
      TurnGuarded(x.s, job);
    }
    SenderTook(c, x, TurnStep(x), id);
  }

  lemma SpokenSender(c: Plan, x: Sys)
    requires Sane(c, x) && x.sEnd.Ok? && x.job.None? && x.s.told != []
    ensures x.sRead >= 1
  {
  }

  lemma CancelSane(c: Plan, x: Sys, id: int)
    requires Drafted(c) && Sane(c, x) && Through(x, id) && Possible(x, Cancels)
    ensures O.FilesOk(x.s.st.files)
    ensures var y := SenderGets(x, Front(x.s.env.id, CancelTransfer)); Sane(c, y) && Through(y, id)
  {
    SpokenSender(c, x);
    SenderTakesSane(c, x, Front(x.s.env.id, CancelTransfer), x.sRead, id);
  }

  lemma SenderLeftSane(c: Plan, x: Sys, id: int)
    requires Drafted(c) && Sane(c, x) && Through(x, id) && x.sEnd.Ok? && x.job.None?
    ensures O.FilesOk(x.s.st.files)
    ensures var y := SenderGets(x, Closed); Sane(c, y) && Through(y, id)
  {
    FilesFine(x);
    SenderGuardedAfter(x.s, Closed);
    SenderTook(c, x, SenderGets(x, Closed), id);
  }

  lemma UsualSane(c: Plan, x: Sys, m: Move, id: int)
    requires Drafted(c) && Sane(c, x) && Through(x, id) && Enabled(x, m) && (x.sEnd.Ok? ==> O.FilesOk(x.s.st.files))
    ensures var y := Then(x, Usual(m)); Sane(c, y) && Through(y, id)
  {
    match m {
      case ToReceiver => ToReceiverSane(c, x, id);
      case ToSender => ToSenderSane(c, x, id);
      case SenderTurn => TurnSane(c, x, id);
      case UserAccepts => AcceptSane(c, x, id);
    }
  }

  lemma UnusualSane(c: Plan, x: Sys, t: Turnabout, id: int)
    requires Drafted(c) && Sane(c, x) && Through(x, id) && Possible(x, t) && (x.sEnd.Ok? ==> O.FilesOk(x.s.st.files))
    requires !t.Usual?
    ensures Sane(c, Then(x, t)) && Through(Then(x, t), id)
  {
    match t {
      case Declines(action) => DeclineSane(c, x, action, id);
      case Cancels => CancelSane(c, x, id);
      case SenderLeft => SenderLeftSane(c, x, id);
      case ReceiverLeft => ReceiverLeftSane(c, x, id);
      case SenderCut => SenderLeftSane(c, x, id);
      case ReceiverCut => ReceiverLeftSane(c, x, id);
      case Usual(_) =>
    }
  }

  /** Every turn keeps all of it. */
  lemma StepSane(c: Plan, x: Sys, t: Turnabout, y: Sys, id: int)
    requires Drafted(c) && Sane(c, x) && Through(x, id) && Next(x, t) == Some(y)
    ensures Sane(c, y) && Through(y, id)
  {
    if t.Usual? {
      UsualSane(c, x, t.move, id);
    } else {
      UnusualSane(c, x, t, id);
    }
  }

  // --- Whole runs ------------------------------------------------------------------------------------------

  type Trace = History<Sys, Turnabout>

  /** x is the state of a disturbed run after k turns. */
  ghost predicate At(c: Config, sIo: Option<nat>, rIo: Option<nat>, h: Trace, k: nat, x: Sys) {
    Leads(Start(c, sIo, rIo), Next, h) && k < |h.states| && h.states[k] == x
  }

  ghost function Reached(c: Plan, sIo: Option<nat>, rIo: Option<nat>, moves: seq<Turnabout>): Option<Sys> {
    Follow(Start(c.Sides(), sIo, rIo), Next, moves)
  }

  lemma {:induction false} FollowSane(
    c: Plan, sIo: Option<nat>, rIo: Option<nat>, moves: seq<Turnabout>, id: int)
    requires Drafted(c) && Reached(c, sIo, rIo, moves).Some?
    ensures var x := Reached(c, sIo, rIo, moves).value; Sane(c, x) && Through(x, id)
    decreases |moves|
  {
    if |moves| == 0 {
      StartSane(c, sIo, rIo);
      StartThrough(c, sIo, rIo, id);
    } else {
      var before := moves[..|moves| - 1];
      FollowSane(c, sIo, rIo, before, id);
      StepSane(c, Reached(c, sIo, rIo, before).value, moves[|moves| - 1], Reached(c, sIo, rIo, moves).value, id);
    }
  }

  lemma RunSane(c: Config, sIo: Option<nat>, rIo: Option<nat>, h: Trace, k: nat, x: Sys, id: int) returns (p: Plan)
    requires Decent(c) && At(c, sIo, rIo, h, k, x)
    ensures p.Sides() == c && Sane(p, x) && Through(x, id)
  {
    p := PlanFor(c);
    FollowLeads(Start(c, sIo, rIo), Next, h, k);
    FollowSane(p, sIo, rIo, h.moves[..k], id);
  }

  lemma WrittenOffered(x: Sys, id: int)
    requires Through(x, id)
    ensures WrittenFor(x.r.disk, id) <= OfferOf(x.s.env, id)
  {
  }

  /** Whoever cancels or declines and whatever I/O fails: at every point of every run, what was written for an id is
      the beginning of the file offered under it, and empty if none is. */
  lemma NothingElseOnDisk(c: Config, sIo: Option<nat>, rIo: Option<nat>, h: Trace, k: nat, x: Sys, id: int)
    requires Decent(c) && At(c, sIo, rIo, h, k, x) && id in x.r.disk.written
    ensures x.r.disk.written[id] <= OfferOf(c.sEnv, id)
  {
    var p := RunSane(c, sIo, rIo, h, k, x, id);
    WrittenOffered(x, id);
  }

  lemma SenderAnnounced(s: Peer, end: Outcome)
    requires SenderGuarded(s, end, None) && end.Err? && !end.error.Panic?
    ensures Manager.Announced(Manager.OutboundEnd(Step(s, end), s.env.id).told, s.env.id)
  {
    if Rank(s.st.state) >= 2 {
      Manager.OutboundAnnounced(Step(s, end), s.env.id);
    }
  }

  /** Both sides end announced: a side that has ended, unless by an abort, leaves its front end with a closing
      message as the last one for the session, once its loop has made its closing broadcast. */
  lemma EndsAnnounced(c: Config, sIo: Option<nat>, rIo: Option<nat>, h: Trace, k: nat, x: Sys)
    requires Decent(c) && At(c, sIo, rIo, h, k, x)
    ensures x.rEnd.Err? && !x.rEnd.error.Panic?
            ==> Manager.Announced(Manager.InboundEnd(Step(x.r, x.rEnd)).told, c.rEnv.id)
    ensures x.sEnd.Err? && !x.sEnd.error.Panic?
            ==> Manager.Announced(Manager.OutboundEnd(Step(x.s, x.sEnd), c.sEnv.id).told, c.sEnv.id)
  {
    var p := RunSane(c, sIo, rIo, h, k, x, 0);
    if x.rEnd.Err? {
      Manager.InboundAnnounced(Step(x.r, x.rEnd));
    }
    if x.sEnd.Err? && !x.sEnd.error.Panic? {
      SenderAnnounced(x.s, x.sEnd);
    }
  }

  /** Nothing more can happen, unless a connection breaks. */
  ghost predicate AtRest(x: Sys) {
    forall t: Turnabout | !t.SenderCut? && !t.ReceiverCut? :: Next(x, t).None?
  }

  /** Every turn that is possible can be taken. */
  lemma TurnsGoOn(c: Config, sIo: Option<nat>, rIo: Option<nat>, h: Trace, k: nat, x: Sys, t: Turnabout)
    requires Decent(c) && At(c, sIo, rIo, h, k, x) && Possible(x, t)
    ensures Next(x, t).Some?
  {
    var p := RunSane(c, sIo, rIo, h, k, x, 0);
    if x.sEnd.Ok? {
      FilesFine(x);
    }
  }

  /** The turn that is left when one side has ended and the other has not. */
  lemma OneLeft(x: Sys) returns (t: Turnabout)
    requires x.sEnd.Err? != x.rEnd.Err?
    ensures Possible(x, t) && !t.SenderCut? && !t.ReceiverCut?
  {
    if x.sEnd.Err? {
      t := if x.rRead < |x.s.out| then Usual(ToReceiver) else ReceiverLeft;
    } else {
      t := if x.job.Some? then Usual(SenderTurn) else if x.sRead < |x.r.out| then Usual(ToSender) else SenderLeft;
    }
  }

  /** And neither side is left behind: when nothing more can happen and one side has ended, both have. */
  lemma BothEnd(c: Config, sIo: Option<nat>, rIo: Option<nat>, h: Trace, k: nat, x: Sys)
    requires Decent(c) && At(c, sIo, rIo, h, k, x) && AtRest(x)
    ensures x.sEnd.Err? <==> x.rEnd.Err?
  {
    if x.sEnd.Err? != x.rEnd.Err? {
      var t := OneLeft(x);
      TurnsGoOn(c, sIo, rIo, h, k, x, t);
    }
  }
}
