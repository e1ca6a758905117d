/** The composed system: a sender and a receiver joined by two first-in first-out streams, and the user
    who accepts. Each side's `out` is its stream; the other side has read a prefix of it. */
module Sessions {
  import opened Wrappers
  import opened Messages
  import opened Libraries
  import opened SecureChannel
  import opened Peers
  import opened Reassembly
  import I = Inbound
  import O = Outbound
  import InboundSafety
  import OutboundSafety
  import EndpointInfo
  import PinCode
  import PointCodec

  type Letters = s: seq<Letter> | |s| == 3 witness seq(3, _ => Letter(0, ShareFrame(None)))

  // What an honest session says, from its first message to the answer: see `Scripted`.
  datatype Script = Script(
    request: Bytes, clientInit: Bytes, serverInit: Bytes, finish: Bytes, accept: Bytes,
    schedule: KeySchedule, pin: string, sLetters: Letters, rLetters: Letters)

  // The two sides and the names in the receiver's download directory.
  datatype Config = Config(sEnv: Env, rEnv: Env, names: set<string>)

  // A configuration with its script.
  datatype Plan = Plan(sEnv: Env, rEnv: Env, names: set<string>, script: Script)
  {
    function Lib(): Library {
      sEnv.lib
    }

    function Sides(): Config {
      Config(sEnv, rEnv, names)
    }
  }

  // `job` holds the ids still to send while the sender is in its loops; an `end` is Ok while the side runs.
  datatype Sys = Sys(
    s: Peer, r: Peer, sRead: nat, rRead: nat, job: Option<seq<int>>, accepted: bool, sEnd: Outcome, rEnd: Outcome)

  datatype Move = ToReceiver | ToSender | SenderTurn | UserAccepts

  // --- The transition relation -------------------------------------------------------------------

  function Init(c: Config): Sys {
    Sys(OutboundSafety.Opened(c.sEnv, None).p, I.Start(c.rEnv, None, c.names), 0, 0, None, false, Ok, Ok)
  }

  /** Which moves are possible. A side that is sending files does not read, one that has ended does nothing. */
  predicate Enabled(x: Sys, m: Move) {
    match m
    case ToReceiver => x.rEnd.Ok? && x.rRead < |x.s.out|
    case ToSender => x.sEnd.Ok? && x.job.None? && x.sRead < |x.r.out|
    case SenderTurn => x.sEnd.Ok? && x.job.Some?
    case UserAccepts => x.rEnd.Ok? && !x.accepted && x.r.st.state.WaitingForUserConsent? && x.r.told != []
  }

  function ReceiverStep(x: Sys): Sys
    requires Enabled(x, ToReceiver)
  {
    var e := I.Handle(x.r, Frame(x.s.out[x.rRead]));
    x.(r := e.p, rEnd := e.r, rRead := x.rRead + 1)
  }

  /** The sender handles a message; an acceptance puts it into its loops, which then go turn by turn. */
  ghost function SenderStep(x: Sys): Sys
    requires Enabled(x, ToSender) && O.FilesOk(x.s.st.files)
  {
    var wire := x.r.out[x.sRead];
    match O.Consented(x.s, wire)
    case Some(q) =>
      var b := O.BeginSending(q);
      x.(s := b, job := Some(b.env.tape.order(b.st.files.Keys)), sRead := x.sRead + 1)
    case None =>
      var e := O.Handle(x.s, Frame(wire));
      x.(s := e.p, sEnd := e.r, sRead := x.sRead + 1)
  }

  ghost function TurnStep(x: Sys): Sys
    requires Enabled(x, SenderTurn) && O.FilesOk(x.s.st.files)
  {
    var job := x.job.value;
    if |job| == 0 then
      var e := O.FinishSending(x.s);
      x.(s := e.p, sEnd := e.r, job := None)
    else
      var t := O.Turn(x.s, job);
      x.(s := t.p, sEnd := t.r, job := Some(t.job))
  }

  function AcceptStep(x: Sys): Sys
    requires Enabled(x, UserAccepts)
  {
    var e := I.Handle(x.r, Front(x.r.env.id, AcceptTransfer));
    x.(r := e.p, rEnd := e.r, accepted := true)
  }

  ghost function After(x: Sys, m: Move): Sys
    requires Enabled(x, m) && O.FilesOk(x.s.st.files)
  {
    match m
    case ToReceiver => ReceiverStep(x)
    case ToSender => SenderStep(x)
    case SenderTurn => TurnStep(x)
    case UserAccepts => AcceptStep(x)
  }

  /** Every message in flight is within the frame limit. */
  ghost predicate Fitting(x: Sys) {
    (forall i | 0 <= i < |x.s.out| :: Fits(x.s.out[i])) && (forall i | 0 <= i < |x.r.out| :: Fits(x.r.out[i]))
  }

  // --- The messages of an honest session ----------------------------------------------------------

  function RequestWire(env: Env): Bytes {
    var info := EndpointInfo.EndpointRecord(env.device, env.tape.salt);
    env.lib.encOffline(OfflineFrame(Some(ConnectionRequest(Some(Some(info))))))
  }

  function Offer(env: Env): Announcement {
    O.Announced(env, |env.payload|)
  }

  function SenderLetters(env: Env): Letters {
    var ids := env.tape.payloadIds;
    [Letter(ids(0), PairedKeyEncryptionFrame()),
     Letter(ids(2), PairedKeyResultFrame()),
     Letter(ids(4), IntroductionFrame(Offer(env).list))]
  }

  function ReceiverLetters(env: Env): Letters {
    var ids := env.tape.payloadIds;
    [Letter(ids(0), PairedKeyEncryptionFrame()),
     Letter(ids(2), PairedKeyResultFrame()),
     Letter(ids(4), ResponseFrame(Accept))]
  }

  ghost predicate ScriptedHello(p: Plan) {
    && p.script.request == RequestWire(p.sEnv)
    && p.script.clientInit == p.Lib().encUkey(O.InitMessage(p.sEnv))
    && p.script.serverInit == p.Lib().encUkey(I.ServerInitMessage(p.rEnv))
    && p.script.finish == p.Lib().encUkey(O.FinishMessage(p.sEnv))
  }

  /** The key schedule and the PIN both sides must arrive at. */
  ghost predicate ScriptedKeys(p: Plan) {
    && p.script.schedule == Schedule(
         p.Lib(), p.Lib().dh(p.sEnv.tape.privateKey, p.Lib().publicKey(p.rEnv.tape.privateKey)),
         p.script.clientInit, p.script.serverInit)
    && p.script.pin == PinCode.Pin(p.script.schedule.auth)
  }

  ghost predicate ScriptedMail(p: Plan) {
    && p.script.accept == p.Lib().encOffline(O.ACCEPT_CONNECTION)
    && p.script.sLetters == SenderLetters(p.sEnv) && p.script.rLetters == ReceiverLetters(p.rEnv)
  }

  ghost predicate Scripted(p: Plan) {
    ScriptedHello(p) && ScriptedKeys(p) && ScriptedMail(p)
  }

  // --- What is assumed -----------------------------------------------------------------------------

  ghost predicate HonestChannel(s: Env, r: Env) {
    && r.lib == s.lib && Lawful(s.lib)
    && (forall i :: |s.tape.ivs(i)| == 16) && (forall i :: |r.tape.ivs(i)| == 16)
  }

  /** Both coordinates of a public key survive their encoding. */
  ghost predicate Sendable(p: PointCodec.Point) {
    PointCodec.Survives(p.x) && PointCodec.Survives(p.y)
  }

  ghost predicate SendableKeys(s: Env, r: Env) {
    Sendable(s.lib.publicKey(s.tape.privateKey)) && Sendable(s.lib.publicKey(r.tape.privateKey))
  }

  ghost predicate HonestHello(s: Env, r: Env) {
    && |s.tape.random| == 32 && |r.tape.random| == 32 && |s.tape.salt| == 16
    && |s.device.name| <= 255 && s.lib.utf8(s.device.name)
  }

  ghost predicate HonestLetters(l: Library, letters: Letters) {
    Reassembly.Distinct(letters) && Short(l, letters)
  }

  ghost predicate HonestMail(p: Plan) {
    HonestLetters(p.Lib(), p.script.sLetters) && HonestLetters(p.Lib(), p.script.rLetters)
  }

  ghost predicate HonestFiles(s: Env, r: Env) {
    && OutboundSafety.DistinctIds(s)
    && InboundSafety.LawfulTape(s.tape) && InboundSafety.LawfulTape(r.tape)
    && |Offer(s).list| > 0 && Offer(s).total < 0x1_0000_0000_0000_0000
  }

  /** Two sides of which each does what it should, as far as the proofs need it, whatever their keys. */
  ghost predicate Decent(c: Config) {
    && HonestChannel(c.sEnv, c.rEnv) && HonestHello(c.sEnv, c.rEnv)
    && HonestLetters(c.sEnv.lib, SenderLetters(c.sEnv)) && HonestLetters(c.sEnv.lib, ReceiverLetters(c.rEnv))
    && HonestFiles(c.sEnv, c.rEnv)
  }

  /** And their keys reach the other side. */
  ghost predicate Honest(c: Config) {
    Decent(c) && SendableKeys(c.sEnv, c.rEnv)
  }

  ghost predicate Drafted(p: Plan) {
    && Scripted(p) && HonestChannel(p.sEnv, p.rEnv) && HonestHello(p.sEnv, p.rEnv)
    && HonestMail(p) && HonestFiles(p.sEnv, p.rEnv)
  }

  ghost predicate Planned(p: Plan) {
    Drafted(p) && SendableKeys(p.sEnv, p.rEnv)
  }

  /** Every such configuration has its script. */
  lemma PlanFor(c: Config) returns (p: Plan)
    requires Decent(c)
    ensures Drafted(p) && p.Sides() == c
  {
    var l := c.sEnv.lib;
    var request, finish := RequestWire(c.sEnv), l.encUkey(O.FinishMessage(c.sEnv));
    var clientInit, serverInit := l.encUkey(O.InitMessage(c.sEnv)), l.encUkey(I.ServerInitMessage(c.rEnv));
    var shared := l.dh(c.sEnv.tape.privateKey, l.publicKey(c.rEnv.tape.privateKey));
    var schedule := Schedule(l, shared, clientInit, serverInit);
    p := Plan(c.sEnv, c.rEnv, c.names, Script(
      request, clientInit, serverInit, finish, l.encOffline(O.ACCEPT_CONNECTION),
      schedule, PinCode.Pin(schedule.auth), SenderLetters(c.sEnv), ReceiverLetters(c.rEnv)));
  }

  /** A frame that carries part of a file. */
  predicate CarriesFile(f: OfflineFrame) {
    match f.v1
    case Some(Payload(Some(PayloadTransfer(Some(header), _)))) => header.ptype.FilePayload?
    case _ => false
  }

  // --- Traffic ---------------------------------------------------------------------------------------

  /** Everything after the first `base` messages of p is its sealed frames, in order. */
  ghost predicate Sealed(p: Peer, base: nat) {
    && p.keys.Some? && |p.out| == base + |p.sent|
    && forall i | 0 <= i < |p.sent| ::
         p.out[base + i] == Seal(p.env.lib, p.keys.value, p.env.tape.ivs(i + 1), i + 1, p.sent[i])
  }

  /** And its counter stands at the last of them. */
  ghost predicate Wired(p: Peer, base: nat) {
    Sealed(p, base) && p.st.serverSeq == |p.sent|
  }

  lemma SendWired(p: Peer, base: nat, frame: OfflineFrame)
    requires Wired(p, base) && p.io.None?
    ensures var s := EncryptAndSend(p, frame);
            && s.r.Ok? && Wired(s.p, base) && p.out <= s.p.out
            && s.p == p.(st := p.st.(serverSeq := |s.p.sent|), out := s.p.out, sent := p.sent + [frame])
  {
  }

  /** p has sent a letter: nothing else about it changed. */
  ghost predicate Mailed(p: Peer, s: Step, base: nat, letter: Letter) {
    && s.r.Ok? && Wired(s.p, base) && p.out <= s.p.out
    && s.p == p.(st := p.st.(serverSeq := |s.p.sent|), out := s.p.out, sent := p.sent + Envelope(p.env.lib, letter))
  }

  lemma SendLetterWired(p: Peer, base: nat, frame: ShareFrame)
    requires Wired(p, base) && p.io.None?
    ensures Mailed(p, SendEncrypted(p, frame), base, Letter(p.env.tape.payloadIds(|p.sent|), frame))
  {
    var body, id := p.env.lib.encShare(frame), p.env.tape.payloadIds(|p.sent|);
    SendWired(p, base, BodyChunk(id, body));
    var q := EncryptAndSend(p, BodyChunk(id, body)).p;
    SendWired(q, base, LastChunk(id, body));
    assert p.sent + [BodyChunk(id, body)] + [LastChunk(id, body)] == p.sent + Envelope(p.env.lib, Letter(id, frame));
  }

  /** A side that has read one more secure message. */
  function Counted(p: Peer): Peer {
    p.(st := p.st.(clientSeq := p.st.clientSeq + 1))
  }

  /** A side reads sent message j as what was sent if it is the next one, and refuses it otherwise. */
  lemma MessageRead(mine: Peer, base: nat, yours: Peer, j: nat)
    requires Sealed(mine, base) && j < |mine.sent| && |mine.env.tape.ivs(j + 1)| == 16
    requires yours.env.lib == mine.env.lib && LawfulCodecs(mine.env.lib) && LawfulCipher(mine.env.lib)
    requires yours.keys.Some? && Paired(mine.keys.value, yours.keys.value)
    ensures ReceiveSecure(yours, mine.out[base + j])
         == if yours.st.clientSeq != j then Incoming(Counted(yours), Err(Refused(BadSequence)), OtherV1)
            else
              match mine.sent[j].v1
              case None => Incoming(Counted(yours), Err(Refused(MissingField)), OtherV1)
              case Some(v1) => Incoming(Counted(yours), Ok, v1)
  {
    var l, f, iv := mine.env.lib, mine.sent[j], mine.env.tape.ivs(j + 1);
    OpenSeal(l, mine.keys.value, yours.keys.value, iv, j + 1, f);
    assert l.decOffline(l.encOffline(f)) == Some(f);
    assert Open(l, yours.keys.value, mine.out[base + j]).Message?;
    assert l.decSm(mine.out[base + j]).Some?;
  }
}
