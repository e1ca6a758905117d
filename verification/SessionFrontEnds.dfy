/** What the two users are shown when their sides run together, whatever goes wrong: the same PIN, how the session
    stands, and how it ended. */
module SessionFrontEnds {
  import opened Wrappers
  import opened Messages
  import opened Libraries
  import opened SecureChannel
  import opened Peers
  import opened Histories
  import opened Sessions
  import opened ChannelOrder
  import opened FrontEnd
  import opened SessionDisruptions
  import SessionHandshake
  import SessionTheorems
  import SessionRuns
  import SessionTransfer
  import opened Delivery
  import Replies
  import I = Inbound
  import O = Outbound
  import InboundSafety
  import OutboundSafety
  import Manager
  import PinCode

  // --- The PIN each side holds -----------------------------------------------------------------------

  /** A side with keys has the PIN of the shared schedule; one without has said nothing. */
  ghost predicate Pinned(c: Plan, p: Peer) {
    match p.keys
    case None => p.told == []
    case Some(_) => p.st.pin == Some(c.script.pin)
  }

  ghost predicate SamePin(p: Peer, q: Peer) {
    q.keys == p.keys && q.st.pin == p.st.pin
  }

  lemma QuietPinned(c: Plan, p: Peer, q: Peer)
    requires Pinned(c, p) && SamePin(p, q) && q.told == p.told
    ensures Pinned(c, q)
  {
  }

  lemma KeyedPinned(c: Plan, p: Peer, q: Peer)
    requires Pinned(c, p) && SamePin(p, q) && p.keys.Some?
    ensures Pinned(c, q)
  {
  }

  // --- The receiver's keys ---------------------------------------------------------------------------

  lemma RequestPinned(c: Plan, r: Peer, wire: Bytes)
    requires Pinned(c, r)
    ensures Pinned(c, I.OnConnectionRequest(r, wire).p) && Pinned(c, I.OnClientInit(r, wire).p)
  {
    QuietPinned(c, r, I.OnConnectionRequest(r, wire).p);
    QuietPinned(c, r, I.OnClientInit(r, wire).p);
  }

  lemma FinalizePinnedToo(c: Plan, r: Peer, key: PublicKeyMsg)
    requires Pinned(c, r) && c.script.pin == PinCode.Pin(c.script.schedule.auth)
    requires Derive(r, key) == Derived(c.script.schedule) || Derive(r, key).Underived?
    ensures Pinned(c, I.Finalize(r, key).p)
  {
  }

  lemma FinishCases(r: Peer, wire: Bytes, key: PublicKeyMsg)
    requires r.env.lib.decUkey(wire) == Some(ClientFinishMsg(Some(ClientFinished(Some(key)))))
    ensures var q := I.OnClientFinish(r, wire).p;
            || (SamePin(r, q) && q.told == r.told)
            || (SamePin(I.Finalize(r, key).p, q) && q.told == I.Finalize(r, key).p.told)
  {
  }

  lemma FinishPinned(c: Plan, r: Peer, wire: Bytes, key: PublicKeyMsg)
    requires Pinned(c, r) && c.script.pin == PinCode.Pin(c.script.schedule.auth)
    requires Derive(r, key) == Derived(c.script.schedule) || Derive(r, key).Underived?
    requires r.env.lib.decUkey(wire) == Some(ClientFinishMsg(Some(ClientFinished(Some(key)))))
    ensures Pinned(c, I.OnClientFinish(r, wire).p)
  {
    FinalizePinnedToo(c, r, key);
    FinishCases(r, wire, key);
  }

  lemma FinishReadPinned(c: Plan, r: Peer)
    requires Drafted(c) && ReceiverClean(c, r, Ok, 2) && Pinned(c, r)
    ensures Pinned(c, I.OnClientFinish(r, c.script.finish).p)
  {
    var m := O.FinishMessage(c.sEnv);
    assert c.Lib().decUkey(c.Lib().encUkey(m)) == Some(m);
    ReceiverDerivation(c, r);
    FinishPinned(c, r, c.script.finish, SessionHandshake.PublishedKey(c.sEnv));
  }

  lemma ResponsePinned(c: Plan, r: Peer, wire: Bytes)
    requires Pinned(c, r) && r.keys.Some?
    ensures Pinned(c, I.OnConnectionResponse(r, wire).p)
  {
    InboundSafety.ResponseCases(r, wire);
    LetterSilent(SendOffline(r, I.ACCEPT_CONNECTION).p, PairedKeyEncryptionFrame());
    KeyedPinned(c, r, I.OnConnectionResponse(r, wire).p);
  }

  lemma SecurePin(r: Peer, wire: Bytes)
    requires Rank(r.st.state) >= 4
    ensures SamePin(r, I.OnSecure(r, wire).p)
  {
    var i := ReceiveSecure(r, wire);
    if i.r.Ok? {
      FrameKeeps(i.p, i.frame);
    }
  }

  lemma ReadPinned(c: Plan, r: Peer, n: nat, wire: Bytes)
    requires Drafted(c) && ReceiverClean(c, r, Ok, n) && Pinned(c, r) && (n < 4 ==> wire == Head(c)[n])
    ensures Pinned(c, I.Handle(r, Frame(wire)).p)
  {
    ClearHandled(r, wire);
    if !Fits(wire) {
    } else if n < 2 {
      RequestPinned(c, r, wire);
    } else if n == 2 {
      FinishReadPinned(c, r);
    } else if n == 3 {
      ResponsePinned(c, r, wire);
    } else {
      InboundHandles(r, wire);
      SecurePin(r, wire);
      KeyedPinned(c, r, I.OnSecure(r, wire).p);
    }
  }

  lemma ActionPinned(c: Plan, r: Peer, n: nat, action: ChannelAction)
    requires ReceiverClean(c, r, Ok, n) && n >= 4 && Pinned(c, r)
    ensures Pinned(c, I.Handle(r, Front(r.env.id, action)).p)
  {
    ReceiverActs(r, r.env.id, action);
    KeyedPinned(c, r, I.Handle(r, Front(r.env.id, action)).p);
  }

  // --- The sender's keys -----------------------------------------------------------------------------

  lemma FinalizePinned(c: Plan, s: Peer, key: PublicKeyMsg)
    requires Pinned(c, s) && c.script.pin == PinCode.Pin(c.script.schedule.auth)
    requires Derive(s, key) == Derived(c.script.schedule) || Derive(s, key).Underived?
    ensures Pinned(c, O.Finalize(s, key).p)
  {
  }

  lemma ProcessedPinned(c: Plan, s: Peer, key: PublicKeyMsg, random: Bytes)
    requires Pinned(c, s) && c.script.pin == PinCode.Pin(c.script.schedule.auth) && |random| == 32
    requires Derive(s, key) == Derived(c.script.schedule) || Derive(s, key).Underived?
    ensures Pinned(c, O.ProcessServerInit(s, ServerInitMsg(Some(ServerInit(1, random, P256Sha512, Some(key))))).p)
  {
    FinalizePinned(c, s, key);
    var f := O.Finalize(s, key);
    QuietPinned(c, f.p, O.SendFinish(f.p).p);
  }

  lemma ServerInitPinned(c: Plan, s: Peer)
    requires Drafted(c) && SenderClean(c, s, Ok, 0) && Pinned(c, s)
    ensures Pinned(c, O.OnServerInit(s, c.script.serverInit).p)
  {
    var m := I.ServerInitMessage(c.rEnv);
    assert c.Lib().decUkey(c.Lib().encUkey(m)) == Some(m);
    SenderDerivation(c, s);
    var q := OutboundSafety.Noted(s, c.script.serverInit);
    ProcessedPinned(c, q, SessionHandshake.PublishedKey(c.rEnv), c.rEnv.tape.random);
    var t := O.ProcessServerInit(q, m);
    QuietPinned(c, t.p, Enter(t.p, SentUkeyClientFinish, false));
  }

  lemma StaysPinned(c: Plan, s: Peer, n: nat, q: Peer)
    requires SenderClean(c, s, Ok, n) && n >= 1 && Pinned(c, s) && Stays(s, q)
    ensures Pinned(c, q)
  {
    KeyedPinned(c, s, q);
  }

  // --- The invariant ---------------------------------------------------------------------------------

  ghost predicate ReceiverShown(c: Plan, r: Peer) {
    Pinned(c, r) && Informed(r)
  }

  ghost predicate SenderShown(c: Plan, s: Peer) {
    Pinned(c, s) && Briefed(s)
  }

  ghost predicate OnScreen(c: Plan, x: Sys) {
    ReceiverShown(c, x.r) && SenderShown(c, x.s)
  }

  lemma OpeningShown(c: Plan, io: Option<nat>)
    ensures SenderShown(c, OutboundSafety.Opened(c.sEnv, io).p)
  {
    OpeningBriefed(c.sEnv, io);
  }

  lemma StartShown(c: Plan, sIo: Option<nat>, rIo: Option<nat>)
    ensures OnScreen(c, Start(c.Sides(), sIo, rIo))
  {
    OpeningShown(c, sIo);
  }

  lemma GuardedReceiver(c: Plan, x: Sys)
    requires Sane(c, x) && x.rEnd.Ok?
    ensures ReceiverClean(c, x.r, Ok, x.rRead) && InboundSafety.Inv(x.r) && x.r.env == c.rEnv
  {
  }

  lemma GuardedSender(c: Plan, x: Sys)
    requires Sane(c, x) && x.sEnd.Ok?
    ensures SenderClean(c, x.s, Ok, x.sRead) && SessionRuns.Kept(x.s, x.job) && x.s.env == c.sEnv
    ensures x.job.Some? ==> x.sRead >= 1
  {
  }

  lemma ReadsShown(c: Plan, x: Sys)
    requires Drafted(c) && Sane(c, x) && OnScreen(c, x) && Enabled(x, ToReceiver)
    ensures OnScreen(c, ReceiverStep(x))
  {
    var wire := x.s.out[x.rRead];
    GuardedReceiver(c, x);
    ClearMessage(c, x.s, x.sEnd, x.rRead);
    ReadPinned(c, x.r, x.rRead, wire);
    ReceiverInformed(x.r, Frame(wire));
  }

  lemma FrontShown(c: Plan, x: Sys, action: ChannelAction)
    requires Sane(c, x) && OnScreen(c, x) && x.rEnd.Ok? && x.r.told != []
    requires action.AcceptTransfer? ==> x.r.st.state.WaitingForUserConsent?
    ensures ReceiverShown(c, I.Handle(x.r, Front(x.r.env.id, action)).p)
  {
    GuardedReceiver(c, x);
    SpokenSecure(c, x.r, x.rRead);
    ActionPinned(c, x.r, x.rRead, action);
    ReceiverInformed(x.r, Front(x.r.env.id, action));
  }

  lemma AcceptShown(c: Plan, x: Sys)
    requires Sane(c, x) && OnScreen(c, x) && Enabled(x, UserAccepts)
    ensures OnScreen(c, AcceptStep(x))
  {
    FrontShown(c, x, AcceptTransfer);
  }

  lemma DeclineShown(c: Plan, x: Sys, action: ChannelAction)
    requires Sane(c, x) && OnScreen(c, x) && Possible(x, Declines(action))
    ensures OnScreen(c, ReceiverGets(x, Front(x.r.env.id, action)))
  {
    FrontShown(c, x, action);
  }

  /** Any event, once the sender has its keys. */
  lemma TakesShown(c: Plan, s: Peer, n: nat, e: Event)
    requires SenderClean(c, s, Ok, n) && n >= 1 && OutboundSafety.Inv(s) && SenderShown(c, s)
    ensures SenderShown(c, O.Handle(s, e).p)
  {
    EventStays(s, e);
    StaysPinned(c, s, n, O.Handle(s, e).p);
    SenderBriefed(s, e);
  }

  lemma HearsShown(c: Plan, s: Peer)
    requires Drafted(c) && SenderClean(c, s, Ok, 0) && OutboundSafety.Inv(s) && SenderShown(c, s)
    ensures SenderShown(c, O.Handle(s, Frame(c.script.serverInit)).p)
  {
    InitHandled(s, c.script.serverInit);
    ServerInitPinned(c, s);
    SenderBriefed(s, Frame(c.script.serverInit));
  }

  lemma ConsentedSilent(s: Peer, wire: Bytes)
    requires O.Consented(s, wire).Some?
    ensures Silent(s, O.Consented(s, wire).value)
  {
  }

  lemma BeginShown(c: Plan, s: Peer, wire: Bytes)
    requires SenderShown(c, s) && OutboundSafety.Inv(s) && O.Consented(s, wire).Some?
    ensures SenderShown(c, O.BeginSending(O.Consented(s, wire).value))
  {
    var q := O.Consented(s, wire).value;
    ConsentedBeside(s, wire);
    ConsentedSilent(s, wire);
    OutboundSafety.UnmovedInv(s, q);
    SilentBriefed(s, q);
    BeginBriefed(q);
    KeyedOrNot(c, s, O.BeginSending(q));
  }

  /** A side that has said something has keys. */
  lemma KeyedOrNot(c: Plan, p: Peer, q: Peer)
    requires Pinned(c, p) && SamePin(p, q) && p.told != []
    ensures Pinned(c, q)
  {
  }

  lemma HeardShown(c: Plan, x: Sys)
    requires Drafted(c) && Sane(c, x) && OnScreen(c, x) && Enabled(x, ToSender)
    ensures O.FilesOk(x.s.st.files) && OnScreen(c, SenderStep(x))
  {
    var wire := x.r.out[x.sRead];
    FilesFine(x);
    GuardedSender(c, x);
    if O.Consented(x.s, wire).Some? {
      BeginShown(c, x.s, wire);
    } else if x.sRead == 0 {
      assert ReceiverClean(c, x.r, x.rEnd, x.rRead);
      HearsShown(c, x.s);
    } else {
      TakesShown(c, x.s, x.sRead, Frame(wire));
    }
  }

  lemma TurnShown(c: Plan, x: Sys)
    requires Sane(c, x) && OnScreen(c, x) && Enabled(x, SenderTurn)
    ensures O.FilesOk(x.s.st.files) && OnScreen(c, TurnStep(x))
  {
    GuardedSender(c, x);
    LoopAwake(x.s);
    if |x.job.value| == 0 {
      FinishStays(x.s);
      StaysPinned(c, x.s, x.sRead, O.FinishSending(x.s).p);
      FinishBriefed(x.s);
    } else {
      TurnStays(x.s, x.job.value);
      StaysPinned(c, x.s, x.sRead, O.Turn(x.s, x.job.value).p);
      TurnBriefed(x.s, x.job.value);
    }
  }

  lemma CancelShown(c: Plan, x: Sys)
    requires Sane(c, x) && OnScreen(c, x) && Possible(x, Cancels)
    ensures O.FilesOk(x.s.st.files) && OnScreen(c, SenderGets(x, Front(x.s.env.id, CancelTransfer)))
  {
    FilesFine(x);
    SpokenSender(c, x);
    GuardedSender(c, x);
    TakesShown(c, x.s, x.sRead, Front(x.s.env.id, CancelTransfer));
  }

  lemma UsualShown(c: Plan, x: Sys, m: Move)
    requires Drafted(c) && Sane(c, x) && OnScreen(c, x) && Enabled(x, m) && (x.sEnd.Ok? ==> O.FilesOk(x.s.st.files))
    ensures OnScreen(c, Then(x, Usual(m)))
  {
    match m {
      case ToReceiver => ReadsShown(c, x);
      case ToSender => HeardShown(c, x);
      case SenderTurn => TurnShown(c, x);
      case UserAccepts => AcceptShown(c, x);
    }
  }

  /** Reading the end of the stream says nothing. */
  lemma ClosedShown(c: Plan, x: Sys)
    requires OnScreen(c, x)
    ensures OnScreen(c, ReceiverGets(x, Closed))
    ensures O.FilesOk(x.s.st.files) ==> OnScreen(c, SenderGets(x, Closed))
  {
  }

  lemma UnusualShown(c: Plan, x: Sys, t: Turnabout)
    requires Sane(c, x) && OnScreen(c, x) && Possible(x, t) && (x.sEnd.Ok? ==> O.FilesOk(x.s.st.files)) && !t.Usual?
    ensures OnScreen(c, Then(x, t))
  {
    match t {
      case Declines(action) => DeclineShown(c, x, action);
      case Cancels => CancelShown(c, x);
      case Usual(_) =>
      case _ => ClosedShown(c, x);
    }
  }

  lemma StepShown(c: Plan, x: Sys, t: Turnabout, y: Sys)
    requires Drafted(c) && Sane(c, x) && OnScreen(c, x) && Next(x, t) == Some(y)
    ensures OnScreen(c, y)
  {
    if t.Usual? {
      UsualShown(c, x, t.move);
    } else {
      UnusualShown(c, x, t);
    }
  }

  lemma {:induction false} FollowShown(c: Plan, sIo: Option<nat>, rIo: Option<nat>, moves: seq<Turnabout>)
    requires Drafted(c) && Reached(c, sIo, rIo, moves).Some?
    ensures OnScreen(c, Reached(c, sIo, rIo, moves).value)
    decreases |moves|
  {
    if |moves| == 0 {
      StartShown(c, sIo, rIo);
    } else {
      var before := moves[..|moves| - 1];
      FollowSane(c, sIo, rIo, before, 0);
      FollowShown(c, sIo, rIo, before);
      StepShown(c, Reached(c, sIo, rIo, before).value, moves[|moves| - 1], Reached(c, sIo, rIo, moves).value);
    }
  }

  lemma RunShown(c: Config, sIo: Option<nat>, rIo: Option<nat>, h: Trace, k: nat, x: Sys) returns (p: Plan)
    requires Decent(c) && At(c, sIo, rIo, h, k, x)
    ensures p.Sides() == c && Drafted(p) && Sane(p, x) && OnScreen(p, x)
  {
    p := PlanFor(c);
    FollowLeads(Start(c, sIo, rIo), Next, h, k);
    FollowSane(p, sIo, rIo, h.moves[..k], 0);
    FollowShown(p, sIo, rIo, h.moves[..k]);
  }

  // --- The same PIN on both screens ------------------------------------------------------------------

  /** The PIN of the key exchange between two sides, from their secrets and the two init messages. */
  function SharedPin(c: Config): string {
    var l := c.sEnv.lib;
    PinCode.Pin(Schedule(
      l, l.dh(c.sEnv.tape.privateKey, l.publicKey(c.rEnv.tape.privateKey)),
      l.encUkey(O.InitMessage(c.sEnv)), l.encUkey(I.ServerInitMessage(c.rEnv))).auth)
  }

  /** Every message with metadata shows this PIN. */
  ghost predicate ShowPin(told: seq<ChannelMessage>, pin: string) {
    forall m | m in told && m.meta.Some? :: m.meta.value.pin == Some(pin)
  }

  lemma PinnedShow(c: Plan, p: Peer)
    requires Pinned(c, p) && AllShow(p.told, p.st.pin)
    ensures ShowPin(p.told, c.script.pin)
  {
    AllShowMeaning(p.told, p.st.pin);
  }

  lemma BriefedTold(p: Peer)
    requires Briefed(p)
    ensures p.keys.Some? ==> p.told != []
    ensures forall m | m in p.told :: Names(m, p.env.payload)
  {
    BriefedNames(p);
  }

  /** At every point of every run, whatever goes wrong: every message with metadata that either front end has got shows
      the PIN of the shared key schedule, hence both the same. The sender's messages all have metadata, and there is
      one from the moment it has keys; the receiver's has it whenever the user is asked. */
  lemma SamePinShown(c: Config, sIo: Option<nat>, rIo: Option<nat>, h: Trace, k: nat, x: Sys)
    requires Decent(c) && At(c, sIo, rIo, h, k, x)
    ensures ShowPin(x.s.told, SharedPin(c)) && ShowPin(x.r.told, SharedPin(c))
    ensures x.s.keys.Some? <==> x.s.told != []
    ensures forall m | m in x.s.told :: Names(m, c.sEnv.payload)
  {
    var p := RunShown(c, sIo, rIo, h, k, x);
    PinnedShow(p, x.s);
    PinnedShow(p, x.r);
    BriefedTold(x.s);
  }

  // --- How things stand --------------------------------------------------------------------------------

  lemma ReceiverNear(x: Sys)
    requires ReceiverGuarded(x.r, x.rEnd) && Current(x.r) && x.r.st.meta.Some?
    ensures 0 <= Acked(x.r.st.meta) - Acked(FrontEnd.Shown(x.r.told).meta) < NOTIFY_STEP
  {
    NeverFarBehind(x.r);
  }

  lemma SenderNear(x: Sys)
    requires SenderGuarded(x.s, x.sEnd, x.job) && Current(x.s)
    ensures 0 <= Acked(x.s.st.meta) - Acked(FrontEnd.Shown(x.s.told).meta) < NOTIFY_STEP
  {
    NeverFarBehind(x.s);
  }

  /** At every point of every run, whatever goes wrong, both screens are up to date: the last message shows the state
      the session is in and its metadata, except that of a transfer less than 256 KiB may not be shown yet. The
      sender's is from the offer on, the receiver's from the first message on. */
  lemma UpToDate(c: Config, sIo: Option<nat>, rIo: Option<nat>, h: Trace, k: nat, x: Sys)
    requires Decent(c) && At(c, sIo, rIo, h, k, x)
    ensures x.r.told != [] || x.r.st.state.ReceivingFiles? ==> Current(x.r)
    ensures Rank(x.s.st.state) >= 6 ==> Current(x.s)
    ensures x.r.told != [] && x.r.st.meta.Some?
            ==> 0 <= Acked(x.r.st.meta) - Acked(FrontEnd.Shown(x.r.told).meta) < NOTIFY_STEP
    ensures Rank(x.s.st.state) >= 6 ==> 0 <= Acked(x.s.st.meta) - Acked(FrontEnd.Shown(x.s.told).meta) < NOTIFY_STEP
  {
    var p := RunShown(c, sIo, rIo, h, k, x);
    if x.r.told != [] && x.r.st.meta.Some? {
      ReceiverNear(x);
    }
    if Rank(x.s.st.state) >= 6 {
      SenderNear(x);
    }
  }

  // --- How it ended ------------------------------------------------------------------------------------

  lemma ReceiverHeard(c: Plan, r: Peer, end: Outcome)
    requires end.Err? && !end.error.Panic? && InboundSafety.Closing(Step(r, end)) && Informed(r)
    ensures Manager.LastFor(Manager.InboundEnd(Step(r, end)).told, r.env.id)
         == if end.error.NotAnError? then Some(r.st.state) else Manager.LastHeard(r.st.state)
  {
    Manager.InboundLastHeard(Step(r, end));
  }

  /** What the users last hear, in every run and whatever goes wrong, of a side that has ended, unless by an abort: of
      one that ended on purpose the state it ended in; of one that broke off after finishing that it has finished, and
      of any other that it is disconnected. The sender's word that it has finished or was cancelled stands for
      whatever address the closing broadcast goes out under. */
  lemma EndsHeard(c: Config, sIo: Option<nat>, rIo: Option<nat>, h: Trace, k: nat, x: Sys, addr: string)
    requires Decent(c) && At(c, sIo, rIo, h, k, x)
    ensures x.rEnd.Err? && !x.rEnd.error.Panic? ==>
              Manager.LastFor(Manager.InboundEnd(Step(x.r, x.rEnd)).told, c.rEnv.id)
              == if x.rEnd.error.NotAnError? then Some(x.r.st.state) else Manager.LastHeard(x.r.st.state)
    ensures x.sEnd.Err? && !x.sEnd.error.Panic? ==>
              var last := Manager.LastFor(Manager.OutboundEnd(Step(x.s, x.sEnd), addr).told, c.sEnv.id);
              if x.sEnd.error.NotAnError? || x.s.st.state.Finished? || x.s.st.state.Cancelled?
              then last == Some(x.s.st.state)
              else addr == c.sEnv.id && !x.s.st.state.Initial? ==> last == Manager.LastHeard(x.s.st.state)
  {
    var p := RunShown(c, sIo, rIo, h, k, x);
    if x.rEnd.Err? && !x.rEnd.error.Panic? {
      ReceiverHeard(p, x.r, x.rEnd);
    }
    if x.sEnd.Err? && !x.sEnd.error.Panic? {
      Manager.OutboundLastHeard(Step(x.s, x.sEnd), addr);
    }
  }

  // --- Undisturbed runs ----------------------------------------------------------------------------------

  /** An undisturbed run as one in which nothing happens to go wrong. */
  lemma Undisturbed(c: Config, h: SessionTheorems.Trace, k: nat, x: Sys) returns (g: Trace)
    requires Honest(c) && SessionTheorems.At(c, h, k, x)
    ensures At(c, None, None, g, k, x)
  {
    g := History(seq(|h.moves|, i requires 0 <= i < |h.moves| => Usual(h.moves[i])), h.states);
    assert Start(c, None, None) == Init(c);
    forall i {:trigger g.moves[i]} | 0 <= i < |g.moves|
      ensures Next(g.states[i], g.moves[i]) == Some(g.states[i + 1])
    {
      assert SessionTheorems.Next(h.states[i], h.moves[i]) == Some(h.states[i + 1]);
    }
  }

  lemma Displayed(c: Config, h: SessionTheorems.Trace, k: nat, x: Sys) returns (p: Plan, gr: Standing)
    requires Honest(c) && SessionTheorems.At(c, h, k, x)
    ensures p.Sides() == c && Drafted(p) && Sane(p, x) && OnScreen(p, x)
    ensures SessionRuns.ReceiverInv(p, x.r, x.rRead, x.accepted, gr)
  {
    var g := Undisturbed(c, h, k, x);
    p := RunShown(c, None, None, g, k, x);
    var gs: Standing;
    gr, gs := SessionTheorems.RunJoint(p, h, k, x);
  }

  function NamesOf(files: seq<SourceFile>): seq<string> {
    seq(|files|, i requires 0 <= i < |files| => match files[i] case Regular(_, name, _) => name case _ => "")
  }

  /** What is asked of the receiving user: the PIN, the names of the readable files in order, and their total. */
  function Question(c: Config): ChannelMessage {
    var files := SessionTransfer.Regulars(c.sEnv.payload, |c.sEnv.payload|);
    ChannelMessage(c.rEnv.id, WaitingForUserConsent, Some(TransferMetadata(
      Some(SharedPin(c)), NamesOf(files), Offer(c.sEnv).total, 0, None)))
  }

  lemma Introduced(c: Plan)
    requires HonestFiles(c.sEnv, c.rEnv)
    ensures var t := I.Taken(map[], c.names, Offer(c.sEnv).list, |Offer(c.sEnv).list|);
            var files := SessionTransfer.Regulars(c.sEnv.payload, |c.sEnv.payload|);
            && t.names == NamesOf(files) && t.total == Offer(c.sEnv).total
  {
    var list := Offer(c.sEnv).list;
    Replies.TakenNames(map[], c.names, list, |list|);
    SessionHandshake.OfferTaken(c.sEnv, c.names, |c.sEnv.payload|);
    SessionTransfer.OfferIsPayload(c.sEnv, |c.sEnv.payload|);
    var files := SessionTransfer.Regulars(c.sEnv.payload, |c.sEnv.payload|);
    forall i | 0 <= i < |files|
      ensures list[i].name == NamesOf(files)[i]
    {
      assert SessionTransfer.Carried(c.sEnv, Offer(c.sEnv), i, files[i]);
    }
  }

  lemma Asked(c: Plan, r: Peer)
    requires HonestFiles(c.sEnv, c.rEnv) && SessionHandshake.ReceiverAsking(c, r) && r.env == c.rEnv
    requires Informed(r) && r.st.pin == Some(SharedPin(c.Sides())) && forall m | m in r.told :: m.id == c.rEnv.id
    ensures r.told != [] && FrontEnd.Shown(r.told) == Question(c.Sides())
  {
    Introduced(c);
    assert FrontEnd.Shown(r.told).id == c.rEnv.id;
  }

  lemma ReceiverCompares(p: Plan, x: Sys, gr: Standing)
    requires Drafted(p) && Sane(p, x) && OnScreen(p, x) && SessionRuns.ReceiverInv(p, x.r, x.rRead, false, gr)
    requires x.rEnd.Ok? && x.r.st.state.WaitingForUserConsent?
    ensures x.r.told != [] && FrontEnd.Shown(x.r.told) == Question(p.Sides())
  {
    SessionRuns.AskingNow(p, x.r, x.rRead, gr);
    GuardedReceiver(p, x);
    Asked(p, x.r);
  }

  lemma SenderCompares(p: Plan, s: Peer)
    requires SenderShown(p, s) && s.st.state.SentIntroduction?
    ensures s.told != [] && FrontEnd.Shown(s.told).state.SentIntroduction? && FrontEnd.Shown(s.told).meta.Some?
    ensures FrontEnd.Shown(s.told).meta.value.pin == Some(p.script.pin)
  {
    BriefedTold(s);
    PinnedShow(p, s);
  }

  /** Both users can compare before anything is accepted: when nothing can happen without the receiving user, that
      user is looking at the PIN, the names and the total of the offer, and the sender at the same PIN. */
  lemma UsersCompare(c: Config, h: SessionTheorems.Trace, k: nat, x: Sys)
    requires Honest(c) && SessionTheorems.At(c, h, k, x) && SessionTheorems.Waiting(x) && !x.accepted
    ensures x.r.told != [] && FrontEnd.Shown(x.r.told) == Question(c)
    ensures x.s.told != [] && FrontEnd.Shown(x.s.told).state.SentIntroduction?
    ensures FrontEnd.Shown(x.s.told).meta.Some? && FrontEnd.Shown(x.s.told).meta.value.pin == Some(SharedPin(c))
  {
    SessionTheorems.NotStuckBeforeConsent(c, h, k, x);
    var p, gr := Displayed(c, h, k, x);
    ReceiverCompares(p, x, gr);
    SenderCompares(p, x.s);
  }

  /** The sender's connection closes after delivery. */
  lemma SenderHangsUp(s: Peer, addr: string)
    requires OutboundSafety.Inv(s) && s.st.state.Finished?
    ensures Manager.LastFor(Manager.OutboundEnd(O.Handle(s, Closed), addr).told, s.env.id) == Some(Finished)
  {
    Manager.OutboundLastHeard(Step(s, Err(Io)), addr);
  }

  lemma ReceiverHangsUp(r: Peer)
    requires InboundSafety.Inv(r) && Rank(r.st.state) >= 4
    ensures Manager.LastFor(Manager.InboundEnd(I.Handle(r, Closed)).told, r.env.id) == Some(Disconnected)
  {
    Manager.InboundLastHeard(Step(r, Err(Io)));
  }

  lemma FinishedHeard(r: Peer, end: Outcome)
    requires end == Err(NotAnError) && r.st.state.Finished? && InboundSafety.Closing(Step(r, end))
    ensures Manager.LastFor(Manager.InboundEnd(Step(r, end)).told, r.env.id) == Some(Finished)
  {
    Manager.InboundLastHeard(Step(r, end));
  }

  /** Where the receiver ends, at once or when the sender hangs up. */
  function EndOf(r: Peer, end: Outcome): Step {
    if end.Ok? then I.Handle(r, Closed) else Step(r, end)
  }

  lemma ReceiverPartHeard(r: Peer, end: Outcome)
    requires ReceiverGuarded(r, end) && Rank(r.st.state) >= 4
    requires end.Ok? || (end == Err(NotAnError) && r.st.state.Finished?)
    ensures Manager.LastFor(Manager.InboundEnd(EndOf(r, end)).told, r.env.id)
         == Some(if r.st.state.Finished? then Finished else Disconnected)
  {
    if end.Ok? {
      ReceiverHangsUp(r);
    } else {
      FinishedHeard(r, end);
    }
  }

  lemma Accepted(p: Plan, x: Sys)
    requires Sane(p, x) && x.rRead >= 4 && (x.rEnd.Ok? || x.r.st.state.Finished?)
    ensures Rank(x.r.st.state) >= 4 && ReceiverGuarded(x.r, x.rEnd) && x.r.env == p.rEnv
    ensures SenderGuarded(x.s, x.sEnd, x.job) && x.s.env == p.sEnv
  {
  }

  /** A delivery is last heard of as what it is. When everything has been delivered and the peers then hang up, the
      sender's user last hears that the session has finished, whatever the address; the receiver's hears so exactly
      when no offered file is empty, and otherwise that it is disconnected. */
  lemma DeliveryHeard(c: Config, h: SessionTheorems.Trace, k: nat, x: Sys, addr: string)
    requires Honest(c) && SessionTheorems.At(c, h, k, x) && x.accepted && SessionTheorems.Waiting(x)
    ensures O.FilesOk(x.s.st.files)
    ensures Manager.LastFor(Manager.OutboundEnd(O.Handle(x.s, Closed), addr).told, c.sEnv.id) == Some(Finished)
    ensures Manager.LastFor(Manager.InboundEnd(EndOf(x.r, x.rEnd)).told, c.rEnv.id)
         == Some(if SessionTheorems.NoneEmpty(Offered(c.sEnv)) then Finished else Disconnected)
  {
    var p, gr := Displayed(c, h, k, x);
    SessionRuns.ReceiverWrote(p, x.r, x.rRead, x.accepted, gr);
    SessionTheorems.FilesDelivered(c, h, k, x);
    SessionTheorems.NoRunFails(c, h, k, x);
    Accepted(p, x);
    SenderHangsUp(x.s, addr);
    ReceiverPartHeard(x.r, x.rEnd);
  }
}
