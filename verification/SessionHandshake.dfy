/** The composed session up to consent: what each side looks like after it has read n messages, and that
    reading the next one takes it to the next such point. */
module SessionHandshake {
  import opened Wrappers
  import opened Messages
  import opened Libraries
  import opened SecureChannel
  import opened Peers
  import opened Reassembly
  import opened Sessions
  import I = Inbound
  import O = Outbound
  import InboundSafety
  import OutboundSafety
  import EndpointInfo
  import PinCode
  import PointCodec

  // --- The receiver, by the number of messages it has read ----------------------------------------

  /** Nothing is known of files and nothing was announced. */
  ghost predicate ReceiverQuiet(c: Plan, r: Peer) {
    && r.env == c.rEnv && r.io.None? && r.st.text.None?
    && r.st.files == map[] && r.st.meta.None? && r.told == [] && r.disk == Disk(c.names, map[], map[])
    && r.st.lastNotified == 0
  }

  ghost predicate ReceiverClear(c: Plan, r: Peer, n: nat) {
    && ReceiverQuiet(c, r)
    && r.sent == [] && r.st.serverSeq == 0 && r.st.clientSeq == 0 && r.st.buffers == map[]
    && match n
       case 0 => r.st.state.Initial? && r.out == [] && r.keys.None?
       case 1 => r.st.state.ReceivedConnectionRequest? && r.out == [] && r.keys.None?
       case 2 =>
         && r.st.state.SentUkeyServerInit? && r.out == [c.script.serverInit] && r.keys.None?
         && r.st.hs.commitment == Some(CipherCommitment(P256Sha512, c.Lib().sha512(c.script.finish)))
         && r.st.hs.privateKey == Some(c.rEnv.tape.privateKey)
         && r.st.hs.serverInit == Some(c.script.serverInit)
         && r.st.hs.clientInit == Some(c.script.clientInit)
       case _ =>
         && r.st.state.ReceivedUkeyClientFinish? && r.out == [c.script.serverInit]
         && ReceiverKeyed(c, r)
  }

  ghost predicate ReceiverKeyed(c: Plan, r: Peer) {
    && r.keys == Some(I.ServerKeys(c.script.schedule))
    && r.st.pin == Some(c.script.pin)
  }

  ghost predicate ReceiverSecure(c: Plan, r: Peer) {
    && r.env == c.rEnv && r.io.None? && r.st.text.None?
    && ReceiverKeyed(c, r) && Wired(r, 2)
    && r.out[0] == c.script.serverInit && r.out[1] == c.script.accept
  }

  /** The receiver after k secure messages, before the introduction is complete. */
  ghost predicate ReceiverPairing(c: Plan, r: Peer, k: nat) {
    && k < 6 && ReceiverQuiet(c, r) && ReceiverSecure(c, r)
    && r.st.clientSeq == k && r.st.buffers == Sorted(c.Lib(), c.script.sLetters, k)
    && r.st.state == (if k < 2 then SentConnectionResponse
                      else if k < 4 then SentPairedKeyResult
                      else ReceivedPairedKeyResult)
    && r.sent == Posted(c.Lib(), c.script.rLetters, if k < 2 then 1 else 2)
  }

  /** The receiver asking the user about the offered files. */
  ghost predicate ReceiverAsking(c: Plan, r: Peer) {
    && ReceiverSecure(c, r) && r.st.clientSeq == 6 && r.st.state.WaitingForUserConsent?
    && r.sent == Posted(c.Lib(), c.script.rLetters, 2)
    && r.told != [] && r.disk == Disk(c.names, map[], map[]) && r.st.lastNotified == 0
    && var t := I.Taken(map[], c.names, Offer(c.sEnv).list, |Offer(c.sEnv).list|);
       && r.st.files == t.files
       && r.st.meta == Some(TransferMetadata(r.st.pin, t.names, t.total, 0, None))
  }

  // --- The sender, by the number of messages it has read ------------------------------------------

  ghost predicate SenderKeyed(c: Plan, s: Peer) {
    && s.keys == Some(O.ClientKeys(c.script.schedule))
    && s.st.pin == Some(c.script.pin)
  }

  ghost predicate SenderOpened(c: Plan, s: Peer) {
    && s.env == c.sEnv && s.io.None? && s.st.state.SentUkeyClientInit? && s.keys.None?
    && s.out == [c.script.request, c.script.clientInit]
    && s.sent == [] && s.st.serverSeq == 0 && s.st.clientSeq == 0 && s.st.buffers == map[] && s.st.files == map[]
    && s.st.hs.privateKey == Some(c.sEnv.tape.privateKey)
    && s.st.hs.clientInit == Some(c.script.clientInit)
    && s.st.hs.clientFinish == Some(c.script.finish)
  }

  ghost predicate SenderFinished(c: Plan, s: Peer) {
    && s.env == c.sEnv && s.io.None? && s.st.state.SentUkeyClientFinish? && SenderKeyed(c, s)
    && s.out == [c.script.request, c.script.clientInit, c.script.finish, c.script.accept]
    && s.sent == [] && s.st.serverSeq == 0 && s.st.clientSeq == 0 && s.st.buffers == map[] && s.st.files == map[]
  }

  ghost predicate SenderSecure(c: Plan, s: Peer) {
    && s.env == c.sEnv && s.io.None? && SenderKeyed(c, s) && Wired(s, 4)
    && s.out[0] == c.script.request && s.out[1] == c.script.clientInit
    && s.out[2] == c.script.finish && s.out[3] == c.script.accept
  }

  /** The sender after l secure messages, before it has read the answer. */
  ghost predicate SenderPairing(c: Plan, s: Peer, l: nat) {
    && l < 6 && SenderSecure(c, s)
    && s.st.clientSeq == l && s.st.buffers == Sorted(c.Lib(), c.script.rLetters, l)
    && s.st.state == (if l < 2 then SentPairedKeyEncryption
                      else if l < 4 then SentPairedKeyResult
                      else SentIntroduction)
    && s.sent == Posted(c.Lib(), c.script.sLetters, if l < 2 then 1 else if l < 4 then 2 else 3)
    && s.st.files == (if l < 4 then map[] else Offer(c.sEnv).files)
  }

  // --- Opening ----------------------------------------------------------------------------------------

  lemma OpeningPoint(c: Plan)
    requires ScriptedHello(c)
    ensures SenderOpened(c, Init(c.Sides()).s) && OutboundSafety.Opened(c.sEnv, None).r.Ok?
    ensures ReceiverClear(c, Init(c.Sides()).r, 0)
  {
  }

  // --- The receiver's clear messages --------------------------------------------------------------------

  lemma RequestRead(c: Plan, r: Peer)
    requires ScriptedHello(c)
    requires HonestChannel(c.sEnv, c.rEnv) && HonestHello(c.sEnv, c.rEnv) && ReceiverClear(c, r, 0)
    ensures var s := I.OnConnectionRequest(r, c.script.request); s.r.Ok? && ReceiverClear(c, s.p, 1)
  {
    EndpointInfo.EndpointRoundTrip(c.sEnv.device, c.sEnv.tape.salt, c.Lib().utf8);
    var info := EndpointInfo.EndpointRecord(c.sEnv.device, c.sEnv.tape.salt);
    var frame := OfflineFrame(Some(ConnectionRequest(Some(Some(info)))));
    assert c.Lib().decOffline(c.Lib().encOffline(frame)) == Some(frame);
  }

  lemma ClientInitRead(c: Plan, r: Peer)
    requires ScriptedHello(c)
    requires HonestChannel(c.sEnv, c.rEnv) && HonestHello(c.sEnv, c.rEnv) && ReceiverClear(c, r, 1)
    ensures var s := I.OnClientInit(r, c.script.clientInit); s.r.Ok? && ReceiverClear(c, s.p, 2)
  {
    var m := O.InitMessage(c.sEnv);
    assert c.Lib().decUkey(c.Lib().encUkey(m)) == Some(m);
    var commitments := m.clientInit.value.commitments;
    assert I.Preferred(commitments) == Some(commitments[0]);
  }

  /** The receiver derives the shared schedule from the sender's published point. */
  lemma ReceiverDerives(c: Plan, r: Peer)
    requires ScriptedKeys(c)
    requires HonestChannel(c.sEnv, c.rEnv) && Sendable(c.Lib().publicKey(c.sEnv.tape.privateKey))
    requires r.env == c.rEnv && r.st.hs.privateKey == Some(c.rEnv.tape.privateKey)
    requires r.st.hs.serverInit == Some(c.script.serverInit) && r.st.hs.clientInit == Some(c.script.clientInit)
    ensures Derive(r, PublishedKey(c.sEnv)) == Derived(c.script.schedule)
  {
    var l := c.Lib();
    var point := l.publicKey(c.sEnv.tape.privateKey);
    assert point.WellFormed() && l.onCurve(point);
    PointCodec.PointRoundTrip(point);
    assert l.dh(c.rEnv.tape.privateKey, point)
        == l.dh(c.sEnv.tape.privateKey, l.publicKey(c.rEnv.tape.privateKey));
  }

  function PublishedKey(env: Env): PublicKeyMsg {
    PublicKeyMsg(Some(PointCodec.Published(env.lib.publicKey(env.tape.privateKey))))
  }

  lemma FinishHandled(c: Plan, r: Peer, key: PublicKeyMsg)
    requires ReceiverClear(c, r, 2) && Derive(r, key) == Derived(c.script.schedule)
    requires c.rEnv.lib == c.sEnv.lib && c.script.pin == PinCode.Pin(c.script.schedule.auth)
    requires c.Lib().decUkey(c.script.finish) == Some(ClientFinishMsg(Some(ClientFinished(Some(key)))))
    ensures var s := I.OnClientFinish(r, c.script.finish); s.r.Ok? && ReceiverClear(c, s.p, 3)
  {
  }

  lemma FinishRead(c: Plan, r: Peer)
    requires ScriptedHello(c) && ScriptedKeys(c)
    requires HonestChannel(c.sEnv, c.rEnv) && Sendable(c.Lib().publicKey(c.sEnv.tape.privateKey))
    requires ReceiverClear(c, r, 2)
    ensures var s := I.OnClientFinish(r, c.script.finish); s.r.Ok? && ReceiverClear(c, s.p, 3)
  {
    var m := O.FinishMessage(c.sEnv);
    assert c.Lib().decUkey(c.Lib().encUkey(m)) == Some(m);
    ReceiverDerives(c, r);
    FinishHandled(c, r, PublishedKey(c.sEnv));
  }

  lemma ResponseHandled(r: Peer, wire: Bytes)
    requires r.io.None? && r.env.lib.decOffline(wire) == Some(O.ACCEPT_CONNECTION)
    ensures var s := SendEncrypted(SendOffline(r, I.ACCEPT_CONNECTION).p, PairedKeyEncryptionFrame());
            I.OnConnectionResponse(r, wire)
            == if s.r.Err? then s else Step(Enter(s.p, SentConnectionResponse, false), Ok)
  {
  }

  lemma ReceiverHasAnswered(c: Plan, q: Peer, s: Step)
    requires ScriptedMail(c) && c.rEnv.lib == c.sEnv.lib && q.sent == [] && q.st.clientSeq == 0 && q.st.buffers == map[]
    requires ReceiverQuiet(c, q) && ReceiverSecure(c, q)
    requires Mailed(q, s, 2, Letter(q.env.tape.payloadIds(0), PairedKeyEncryptionFrame()))
    ensures ReceiverPairing(c, Enter(s.p, SentConnectionResponse, false), 0)
  {
  }

  lemma ResponseRead(c: Plan, r: Peer)
    requires ScriptedMail(c)
    requires HonestChannel(c.sEnv, c.rEnv) && ReceiverClear(c, r, 3)
    ensures var s := I.OnConnectionResponse(r, c.script.accept); s.r.Ok? && ReceiverPairing(c, s.p, 0)
  {
    assert c.Lib().decOffline(c.Lib().encOffline(O.ACCEPT_CONNECTION)) == Some(O.ACCEPT_CONNECTION);
    var q := SendOffline(r, I.ACCEPT_CONNECTION).p;
    assert q.out == [c.script.serverInit, c.script.accept];
    assert Wired(q, 2);
    SendLetterWired(q, 2, PairedKeyEncryptionFrame());
    ResponseHandled(r, c.script.accept);
    ReceiverHasAnswered(c, q, SendEncrypted(q, PairedKeyEncryptionFrame()));
  }

  // --- The sender's clear messages ------------------------------------------------------------------------

  lemma SenderDerives(c: Plan, s: Peer)
    requires ScriptedKeys(c) && HonestChannel(c.sEnv, c.rEnv)
    requires s.env == c.sEnv && s.st.hs.privateKey == Some(c.sEnv.tape.privateKey)
    requires s.st.hs.clientInit == Some(c.script.clientInit)
    requires Sendable(c.Lib().publicKey(c.rEnv.tape.privateKey))
    ensures Derive(OutboundSafety.Noted(s, c.script.serverInit), PublishedKey(c.rEnv)) == Derived(c.script.schedule)
  {
    var l := c.Lib();
    var point := l.publicKey(c.rEnv.tape.privateKey);
    assert point.WellFormed() && l.onCurve(point);
    PointCodec.PointRoundTrip(point);
  }

  lemma ServerInitHandled(c: Plan, s: Peer, key: PublicKeyMsg)
    requires SenderOpened(c, s)
    requires Derive(OutboundSafety.Noted(s, c.script.serverInit), key) == Derived(c.script.schedule)
    requires c.script.pin == PinCode.Pin(c.script.schedule.auth) && |c.rEnv.tape.random| == 32
    requires c.script.accept == c.Lib().encOffline(O.ACCEPT_CONNECTION)
    requires c.Lib().decUkey(c.script.serverInit)
          == Some(ServerInitMsg(Some(ServerInit(1, c.rEnv.tape.random, P256Sha512, Some(key)))))
    ensures var t := O.OnServerInit(s, c.script.serverInit); t.r.Ok? && SenderFinished(c, t.p)
  {
  }

  lemma ServerInitRead(c: Plan, s: Peer)
    requires Scripted(c)
    requires HonestChannel(c.sEnv, c.rEnv) && HonestHello(c.sEnv, c.rEnv) && SenderOpened(c, s)
    requires Sendable(c.Lib().publicKey(c.rEnv.tape.privateKey))
    ensures var t := O.OnServerInit(s, c.script.serverInit); t.r.Ok? && SenderFinished(c, t.p)
  {
    var m := I.ServerInitMessage(c.rEnv);
    assert c.Lib().decUkey(c.Lib().encUkey(m)) == Some(m);
    SenderDerives(c, s);
    ServerInitHandled(c, s, PublishedKey(c.rEnv));
  }

  lemma SenderHasFinished(c: Plan, s: Peer, t: Step)
    requires SenderFinished(c, s) && Mailed(s, t, 4, Letter(s.env.tape.payloadIds(0), PairedKeyEncryptionFrame()))
    requires ScriptedMail(c)
    ensures SenderPairing(
              c, t.p.(st := t.p.st.(state := SentPairedKeyEncryption,
                                    hs := t.p.st.hs.(serverInit := Some(c.script.accept)))), 0)
  {
  }

  lemma AcceptanceHandled(s: Peer, wire: Bytes)
    requires s.env.lib.decOffline(wire) == Some(O.ACCEPT_CONNECTION)
    ensures var t := SendEncrypted(s, PairedKeyEncryptionFrame());
            O.OnConnectionResponse(s, wire)
            == if t.r.Err? then t
               else Step(t.p.(st := t.p.st.(state := SentPairedKeyEncryption,
                                            hs := t.p.st.hs.(serverInit := Some(wire)))), Ok)
  {
  }

  lemma AcceptanceRead(c: Plan, s: Peer)
    requires ScriptedMail(c)
    requires HonestChannel(c.sEnv, c.rEnv) && SenderFinished(c, s)
    ensures var t := O.OnConnectionResponse(s, c.script.accept); t.r.Ok? && SenderPairing(c, t.p, 0)
  {
    assert c.Lib().decOffline(c.Lib().encOffline(O.ACCEPT_CONNECTION)) == Some(O.ACCEPT_CONNECTION);
    assert Wired(s, 4);
    SendLetterWired(s, 4, PairedKeyEncryptionFrame());
    AcceptanceHandled(s, c.script.accept);
    SenderHasFinished(c, s, SendEncrypted(s, PairedKeyEncryptionFrame()));
  }

  // --- When the key exchange fails ---------------------------------------------------------------------------

  lemma UnsendableUnderived(env: Env, p: Peer)
    requires p.env.lib == env.lib && LawfulCurve(env.lib) && !Sendable(env.lib.publicKey(env.tape.privateKey))
    ensures Derive(p, PublishedKey(env)) == Underived(Refused(BadPoint))
  {
    var point := env.lib.publicKey(env.tape.privateKey);
    assert point.WellFormed();
    PointCodec.PointRoundTrip(point);
  }

  lemma ServerInitRefused(s: Peer, wire: Bytes, si: ServerInit)
    requires si.publicKey.Some?
    requires Derive(OutboundSafety.Noted(s, wire), si.publicKey.value) == Underived(Refused(BadPoint))
    requires s.env.lib.decUkey(wire) == Some(ServerInitMsg(Some(si)))
    requires O.CheckServerInit(ServerInitMsg(Some(si))).None?
    ensures O.OnServerInit(s, wire) == Step(OutboundSafety.Noted(s, wire), Err(Refused(BadPoint)))
  {
  }

  lemma FinishRefused(c: Plan, r: Peer, key: PublicKeyMsg)
    requires ReceiverClear(c, r, 2) && Derive(r, key) == Underived(Refused(BadPoint)) && c.rEnv.lib == c.sEnv.lib
    requires c.Lib().decUkey(c.script.finish) == Some(ClientFinishMsg(Some(ClientFinished(Some(key)))))
    ensures I.OnClientFinish(r, c.script.finish) == Step(r, Err(Refused(BadPoint)))
  {
  }

  /** The sender gets through the server's init exactly when both coordinates of the receiver's public key are
      at least 2^247; otherwise the point cannot be rebuilt and the session ends. */
  lemma ServerInitExactly(c: Plan, s: Peer)
    requires Scripted(c) && HonestChannel(c.sEnv, c.rEnv) && HonestHello(c.sEnv, c.rEnv) && SenderOpened(c, s)
    ensures var t := O.OnServerInit(s, c.script.serverInit);
            if Sendable(c.Lib().publicKey(c.rEnv.tape.privateKey)) then t.r.Ok? && SenderFinished(c, t.p)
            else t == Step(OutboundSafety.Noted(s, c.script.serverInit), Err(Refused(BadPoint)))
  {
    if Sendable(c.Lib().publicKey(c.rEnv.tape.privateKey)) {
      ServerInitRead(c, s);
    } else {
      var m := I.ServerInitMessage(c.rEnv);
      assert c.Lib().decUkey(c.Lib().encUkey(m)) == Some(m);
      UnsendableUnderived(c.rEnv, OutboundSafety.Noted(s, c.script.serverInit));
      ServerInitRefused(s, c.script.serverInit, m.serverInit.value);
    }
  }

  /** The receiver gets through the client's finish exactly when the sender's public key is as large. */
  lemma FinishExactly(c: Plan, r: Peer)
    requires Scripted(c) && HonestChannel(c.sEnv, c.rEnv) && ReceiverClear(c, r, 2)
    ensures var t := I.OnClientFinish(r, c.script.finish);
            if Sendable(c.Lib().publicKey(c.sEnv.tape.privateKey)) then t.r.Ok? && ReceiverClear(c, t.p, 3)
            else t == Step(r, Err(Refused(BadPoint)))
  {
    if Sendable(c.Lib().publicKey(c.sEnv.tape.privateKey)) {
      FinishRead(c, r);
    } else {
      var m := O.FinishMessage(c.sEnv);
      assert c.Lib().decUkey(c.Lib().encUkey(m)) == Some(m);
      UnsendableUnderived(c.sEnv, r);
      FinishRefused(c, r, PublishedKey(c.sEnv));
    }
  }

  // --- Letters arriving ------------------------------------------------------------------------------------

  function Stored(p: Peer, id: int, body: Bytes): Peer {
    WithBuffers(Counted(p), p.st.buffers[id := body])
  }

  lemma ReceiverStores(r: Peer, wire: Bytes, id: int, body: Bytes)
    requires ReceiveSecure(r, wire) == Incoming(Counted(r), Ok, BodyChunk(id, body).v1.value)
    requires id !in r.st.buffers && |body| <= SANE_FRAME_LENGTH
    ensures I.OnSecure(r, wire) == Step(Stored(r, id, body), Ok)
  {
    FirstChunkStored(Counted(r), id, body);
  }

  lemma ReceiverCompletes(r: Peer, wire: Bytes, id: int, body: Bytes, frame: ShareFrame)
    requires ReceiveSecure(r, wire) == Incoming(Counted(r), Ok, LastChunk(id, body).v1.value)
    requires id in r.st.buffers && r.st.buffers[id] == body && |body| <= SANE_FRAME_LENGTH
    requires r.st.text.None? && r.env.lib.decShare(body) == Some(frame)
    ensures I.OnSecure(r, wire) == I.OnSetup(Counted(r), frame)
  {
    LastChunkCompletes(Counted(r), id, body);
  }

  lemma SenderStores(s: Peer, wire: Bytes, id: int, body: Bytes)
    requires ReceiveSecure(s, wire) == Incoming(Counted(s), Ok, BodyChunk(id, body).v1.value)
    requires id !in s.st.buffers && |body| <= SANE_FRAME_LENGTH && O.FilesOk(s.st.files)
    ensures O.OnSecure(s, wire) == Step(Stored(s, id, body), Ok)
  {
    FirstChunkStored(Counted(s), id, body);
  }

  lemma SenderCompletes(s: Peer, wire: Bytes, id: int, body: Bytes, frame: ShareFrame)
    requires ReceiveSecure(s, wire) == Incoming(Counted(s), Ok, LastChunk(id, body).v1.value)
    requires id in s.st.buffers && s.st.buffers[id] == body && |body| <= SANE_FRAME_LENGTH
    requires O.FilesOk(s.st.files) && s.env.lib.decShare(body) == Some(frame)
    ensures O.OnSecure(s, wire) == O.OnSetup(Counted(s), frame)
  {
    LastChunkCompletes(Counted(s), id, body);
  }

  lemma {:induction false} SortedAt(l: Library, letters: seq<Letter>, j: nat)
    requires j < |letters| && Reassembly.Distinct(letters)
    ensures letters[j].id !in Sorted(l, letters, 2 * j)
    ensures Sorted(l, letters, 2 * j + 1) == Sorted(l, letters, 2 * j)[letters[j].id := l.encShare(letters[j].frame)]
    ensures Sorted(l, letters, 2 * j + 2) == Sorted(l, letters, 2 * j + 1)
  {
    SortedFresh(l, letters, j);
  }

  // The sender has posted at least the first n letters.
  ghost predicate HasPosted(p: Peer, letters: seq<Letter>, n: nat) {
    n <= |letters| && 2 * n <= |p.sent| && p.sent[..2 * n] == Posted(p.env.lib, letters, n)
  }

  /** The next secure message the receiver reads is the next one the sender sent. */
  lemma NextToReceiver(c: Plan, s: Peer, r: Peer, k: nat)
    requires HonestChannel(c.sEnv, c.rEnv) && SenderSecure(c, s) && ReceiverSecure(c, r)
    requires r.st.clientSeq == k < |s.sent| && s.sent[k].v1.Some?
    ensures ReceiveSecure(r, s.out[4 + k]) == Incoming(Counted(r), Ok, s.sent[k].v1.value)
  {
    MessageRead(s, 4, r, k);
  }

  lemma NextToSender(c: Plan, s: Peer, r: Peer, k: nat)
    requires HonestChannel(c.sEnv, c.rEnv) && SenderSecure(c, s) && ReceiverSecure(c, r)
    requires s.st.clientSeq == k < |r.sent| && r.sent[k].v1.Some?
    ensures ReceiveSecure(s, r.out[2 + k]) == Incoming(Counted(s), Ok, r.sent[k].v1.value)
  {
    MessageRead(r, 2, s, k);
  }

  /** Letter j of a mail that has been posted so far: its two chunks, and its buffer before and after. */
  lemma {:induction false} LetterAt(l: Library, letters: seq<Letter>, sent: seq<OfflineFrame>, j: nat)
    requires j < |letters| && 2 * j + 2 <= |sent| && sent[..2 * j + 2] == Posted(l, letters, j + 1)
    requires Reassembly.Distinct(letters) && Short(l, letters) && LawfulCodecs(l)
    ensures var id, body := letters[j].id, l.encShare(letters[j].frame);
            && sent[2 * j] == BodyChunk(id, body) && sent[2 * j + 1] == LastChunk(id, body)
            && |body| <= SANE_FRAME_LENGTH && l.decShare(body) == Some(letters[j].frame)
            && id !in Sorted(l, letters, 2 * j)
            && Sorted(l, letters, 2 * j + 1) == Sorted(l, letters, 2 * j)[id := body]
            && Sorted(l, letters, 2 * j + 2) == Sorted(l, letters, 2 * j + 1)
  {
    PostedAt(l, letters, j + 1, j);
    SortedAt(l, letters, j);
    assert sent[2 * j] == sent[..2 * j + 2][2 * j];
    assert sent[2 * j + 1] == sent[..2 * j + 2][2 * j + 1];
  }

  lemma ReceiverStored(c: Plan, r: Peer, k: nat, id: int, body: Bytes)
    requires k % 2 == 0 && ReceiverPairing(c, r, k)
    requires Sorted(c.Lib(), c.script.sLetters, k + 1) == Sorted(c.Lib(), c.script.sLetters, k)[id := body]
    ensures ReceiverPairing(c, Stored(r, id, body), k + 1)
  {
  }

  lemma ReceiverKeeps(c: Plan, r: Peer, k: nat, wire: Bytes, id: int, body: Bytes)
    requires k % 2 == 0 && ReceiverPairing(c, r, k) && id !in r.st.buffers && |body| <= SANE_FRAME_LENGTH
    requires ReceiveSecure(r, wire) == Incoming(Counted(r), Ok, BodyChunk(id, body).v1.value)
    requires Sorted(c.Lib(), c.script.sLetters, k + 1) == Sorted(c.Lib(), c.script.sLetters, k)[id := body]
    ensures var t := I.OnSecure(r, wire); t.r.Ok? && ReceiverPairing(c, t.p, k + 1)
  {
    ReceiverStores(r, wire, id, body);
    ReceiverStored(c, r, k, id, body);
  }

  lemma SenderStored(c: Plan, s: Peer, l: nat, id: int, body: Bytes)
    requires l % 2 == 0 && SenderPairing(c, s, l)
    requires Sorted(c.Lib(), c.script.rLetters, l + 1) == Sorted(c.Lib(), c.script.rLetters, l)[id := body]
    ensures SenderPairing(c, Stored(s, id, body), l + 1)
  {
  }

  lemma SenderKeeps(c: Plan, s: Peer, l: nat, wire: Bytes, id: int, body: Bytes)
    requires l % 2 == 0 && SenderPairing(c, s, l) && id !in s.st.buffers && |body| <= SANE_FRAME_LENGTH
    requires ReceiveSecure(s, wire) == Incoming(Counted(s), Ok, BodyChunk(id, body).v1.value)
    requires Sorted(c.Lib(), c.script.rLetters, l + 1) == Sorted(c.Lib(), c.script.rLetters, l)[id := body]
    requires O.FilesOk(s.st.files)
    ensures var t := O.OnSecure(s, wire); t.r.Ok? && SenderPairing(c, t.p, l + 1)
  {
    SenderStores(s, wire, id, body);
    SenderStored(c, s, l, id, body);
  }

  lemma {:induction false} ReceiverGetsChunk(c: Plan, s: Peer, r: Peer, j: nat)
    requires HonestChannel(c.sEnv, c.rEnv) && HonestMail(c) && SenderSecure(c, s) && ReceiverSecure(c, r) && j < 3
    requires r.st.clientSeq == 2 * j && r.st.buffers == Sorted(c.Lib(), c.script.sLetters, 2 * j)
    requires HasPosted(s, c.script.sLetters, j + 1)
    ensures var id, body := c.script.sLetters[j].id, c.Lib().encShare(c.script.sLetters[j].frame);
            && ReceiveSecure(r, s.out[4 + 2 * j]) == Incoming(Counted(r), Ok, BodyChunk(id, body).v1.value)
            && id !in r.st.buffers && |body| <= SANE_FRAME_LENGTH
            && Sorted(c.Lib(), c.script.sLetters, 2 * j + 1) == r.st.buffers[id := body]
  {
    LetterAt(c.Lib(), c.script.sLetters, s.sent, j);
    NextToReceiver(c, s, r, 2 * j);
  }

  /** The first chunk of letter j reaches the receiver. */
  lemma ReceiverOpensLetter(c: Plan, s: Peer, r: Peer, j: nat)
    requires HonestChannel(c.sEnv, c.rEnv) && HonestMail(c) && SenderSecure(c, s) && ReceiverPairing(c, r, 2 * j)
    requires HasPosted(s, c.script.sLetters, j + 1)
    ensures var t := I.OnSecure(r, s.out[4 + 2 * j]); t.r.Ok? && ReceiverPairing(c, t.p, 2 * j + 1)
  {
    ReceiverGetsChunk(c, s, r, j);
    ReceiverKeeps(c, r, 2 * j, s.out[4 + 2 * j], c.script.sLetters[j].id, c.Lib().encShare(c.script.sLetters[j].frame));
  }

  /** The last chunk of letter j reaches the receiver: the sharing frame is handled. */
  lemma {:induction false} ReceiverHasLetter(c: Plan, s: Peer, r: Peer, j: nat)
    requires HonestChannel(c.sEnv, c.rEnv) && HonestMail(c) && SenderSecure(c, s) && ReceiverSecure(c, r) && j < 3
    requires r.st.clientSeq == 2 * j + 1 && r.st.buffers == Sorted(c.Lib(), c.script.sLetters, 2 * j + 1)
    requires HasPosted(s, c.script.sLetters, j + 1)
    ensures I.OnSecure(r, s.out[4 + 2 * j + 1]) == I.OnSetup(Counted(r), c.script.sLetters[j].frame)
    ensures r.st.buffers == Sorted(c.Lib(), c.script.sLetters, 2 * j + 2)
  {
    var letter := c.script.sLetters[j];
    LetterAt(c.Lib(), c.script.sLetters, s.sent, j);
    NextToReceiver(c, s, r, 2 * j + 1);
    ReceiverCompletes(r, s.out[4 + 2 * j + 1], letter.id, c.Lib().encShare(letter.frame), letter.frame);
  }

  lemma {:induction false} SenderGetsChunk(c: Plan, s: Peer, r: Peer, j: nat)
    requires HonestChannel(c.sEnv, c.rEnv) && HonestMail(c) && ReceiverSecure(c, r) && SenderSecure(c, s) && j < 3
    requires s.st.clientSeq == 2 * j && s.st.buffers == Sorted(c.Lib(), c.script.rLetters, 2 * j)
    requires HasPosted(r, c.script.rLetters, j + 1)
    ensures var id, body := c.script.rLetters[j].id, c.Lib().encShare(c.script.rLetters[j].frame);
            && ReceiveSecure(s, r.out[2 + 2 * j]) == Incoming(Counted(s), Ok, BodyChunk(id, body).v1.value)
            && id !in s.st.buffers && |body| <= SANE_FRAME_LENGTH
            && Sorted(c.Lib(), c.script.rLetters, 2 * j + 1) == s.st.buffers[id := body]
  {
    LetterAt(c.Lib(), c.script.rLetters, r.sent, j);
    NextToSender(c, s, r, 2 * j);
  }

  lemma SenderOpensLetter(c: Plan, s: Peer, r: Peer, j: nat)
    requires HonestChannel(c.sEnv, c.rEnv) && HonestMail(c) && ReceiverSecure(c, r) && SenderPairing(c, s, 2 * j)
    requires HasPosted(r, c.script.rLetters, j + 1) && O.FilesOk(s.st.files)
    ensures var t := O.OnSecure(s, r.out[2 + 2 * j]); t.r.Ok? && SenderPairing(c, t.p, 2 * j + 1)
  {
    SenderGetsChunk(c, s, r, j);
    SenderKeeps(c, s, 2 * j, r.out[2 + 2 * j], c.script.rLetters[j].id, c.Lib().encShare(c.script.rLetters[j].frame));
  }

  lemma {:induction false} SenderHasLetter(c: Plan, s: Peer, r: Peer, j: nat)
    requires HonestChannel(c.sEnv, c.rEnv) && HonestMail(c) && ReceiverSecure(c, r) && SenderSecure(c, s) && j < 3
    requires s.st.clientSeq == 2 * j + 1 && s.st.buffers == Sorted(c.Lib(), c.script.rLetters, 2 * j + 1)
    requires HasPosted(r, c.script.rLetters, j + 1) && O.FilesOk(s.st.files)
    ensures O.OnSecure(s, r.out[2 + 2 * j + 1]) == O.OnSetup(Counted(s), c.script.rLetters[j].frame)
    ensures s.st.buffers == Sorted(c.Lib(), c.script.rLetters, 2 * j + 2)
  {
    var letter := c.script.rLetters[j];
    LetterAt(c.Lib(), c.script.rLetters, r.sent, j);
    NextToSender(c, s, r, 2 * j + 1);
    SenderCompletes(s, r.out[2 + 2 * j + 1], letter.id, c.Lib().encShare(letter.frame), letter.frame);
  }

  // --- Letters handled ---------------------------------------------------------------------------------------

  lemma ReceiverHasPaired(c: Plan, r: Peer, s: Step)
    requires ReceiverPairing(c, r, 1) && r.st.buffers == Sorted(c.Lib(), c.script.sLetters, 2)
    requires c.rEnv.lib == c.sEnv.lib && Mailed(Counted(r), s, 2, c.script.rLetters[1])
    ensures ReceiverPairing(c, Enter(s.p, SentPairedKeyResult, false), 2)
  {
  }

  lemma PairingAccepted(p: Peer)
    requires p.st.state.SentConnectionResponse?
    ensures var s := SendEncrypted(p, PairedKeyResultFrame());
            I.OnSetup(p, PairedKeyEncryptionFrame())
            == if s.r.Err? then s else Step(Enter(s.p, SentPairedKeyResult, false), Ok)
  {
  }

  lemma ReceiverPairs(c: Plan, r: Peer)
    requires ScriptedMail(c)
    requires ReceiverPairing(c, r, 1) && r.st.buffers == Sorted(c.Lib(), c.script.sLetters, 2)
    requires HonestChannel(c.sEnv, c.rEnv)
    ensures var t := I.OnSetup(Counted(r), PairedKeyEncryptionFrame()); t.r.Ok? && ReceiverPairing(c, t.p, 2)
  {
    PairingAccepted(Counted(r));
    SendLetterWired(Counted(r), 2, PairedKeyResultFrame());
    ReceiverHasPaired(c, r, SendEncrypted(Counted(r), PairedKeyResultFrame()));
  }

  lemma ReceiverPaired(c: Plan, r: Peer)
    requires ReceiverPairing(c, r, 3) && r.st.buffers == Sorted(c.Lib(), c.script.sLetters, 4)
    ensures var t := I.OnSetup(Counted(r), PairedKeyResultFrame()); t.r.Ok? && ReceiverPairing(c, t.p, 4)
  {
  }

  /** The receiver's table is the sender's, with nothing transferred or opened yet. */
  ghost predicate Mirrors(a: Announcement, t: I.Intake) {
    && (a.total < U64 ==> t.total == a.total) && t.files.Keys == a.files.Keys
    && (forall id | id in t.files ::
          t.files[id] == t.files[id].(transferred := 0, total := a.files[id].total, handle := None))
  }

  lemma MirrorsNext(env: Env, names: set<string>, a: Announcement, t: I.Intake, f: SourceFile)
    requires Mirrors(a, t) && f.Regular?
    ensures Mirrors(O.Announce(a, env, f),
                    I.TakeIn(t, names, FileMetadata(env.tape.fileIds(|a.list|), f.name, |f.data|)))
  {
  }

  /** What the receiver is offered is what the sender announced. */
  lemma {:induction false} OfferTaken(env: Env, names: set<string>, k: nat)
    requires k <= |env.payload| && OutboundSafety.DistinctIds(env)
    ensures var a := O.Announced(env, k); Mirrors(a, I.Taken(map[], names, a.list, |a.list|))
  {
    if k > 0 {
      OfferTaken(env, names, k - 1);
      var a, f := O.Announced(env, k - 1), env.payload[k - 1];
      if f.Regular? {
        var list := O.Announced(env, k).list;
        TakenPrefix(names, a.list, list, |a.list|);
        MirrorsNext(env, names, a, I.Taken(map[], names, a.list, |a.list|), f);
        assert I.Taken(map[], names, list, |list|)
            == I.TakeIn(I.Taken(map[], names, list, |a.list|), names, list[|a.list|]);
      }
    }
  }

  lemma {:induction false} TakenPrefix(names: set<string>, list: seq<FileMetadata>, more: seq<FileMetadata>, k: nat)
    requires k <= |list| && list <= more
    ensures I.Taken(map[], names, list, k) == I.Taken(map[], names, more, k)
  {
    if k > 0 {
      TakenPrefix(names, list, more, k - 1);
    }
  }

  lemma ReceiverAsks(c: Plan, r: Peer)
    requires HonestChannel(c.sEnv, c.rEnv) && HonestFiles(c.sEnv, c.rEnv) && ReceiverPairing(c, r, 5)
    ensures var t := I.OnSetup(Counted(r), IntroductionFrame(Offer(c.sEnv).list)); t.r.Ok? && ReceiverAsking(c, t.p)
  {
    OfferTaken(c.sEnv, c.names, |c.sEnv.payload|);
    assert r.st.files == map[] && r.disk.names == c.names;
  }

  lemma SenderHasPaired(c: Plan, s: Peer, t: Step)
    requires SenderPairing(c, s, 1) && s.st.buffers == Sorted(c.Lib(), c.script.rLetters, 2)
    requires Mailed(Counted(s), t, 4, c.script.sLetters[1])
    ensures SenderPairing(c, Enter(t.p, SentPairedKeyResult, false), 2)
  {
  }

  lemma PairingReply(p: Peer)
    requires O.FilesOk(p.st.files) && p.st.state.SentPairedKeyEncryption?
    ensures var s := SendEncrypted(p, PairedKeyResultFrame());
            O.OnSetup(p, PairedKeyEncryptionFrame())
            == if s.r.Err? then s else Step(Enter(s.p, SentPairedKeyResult, false), Ok)
  {
  }

  lemma SenderPairs(c: Plan, s: Peer)
    requires ScriptedMail(c)
    requires SenderPairing(c, s, 1) && s.st.buffers == Sorted(c.Lib(), c.script.rLetters, 2)
    requires HonestChannel(c.sEnv, c.rEnv)
    requires O.FilesOk(s.st.files)
    ensures var t := O.OnSetup(Counted(s), PairedKeyEncryptionFrame()); t.r.Ok? && SenderPairing(c, t.p, 2)
  {
    PairingReply(Counted(s));
    SendLetterWired(Counted(s), 4, PairedKeyResultFrame());
    SenderHasPaired(c, s, SendEncrypted(Counted(s), PairedKeyResultFrame()));
  }

  lemma SenderHasOffered(c: Plan, s: Peer, t: Step)
    requires SenderPairing(c, s, 3) && s.st.buffers == Sorted(c.Lib(), c.script.rLetters, 4)
    requires Mailed(OutboundSafety.Listed(Counted(s)), t, 4, c.script.sLetters[2])
    ensures SenderPairing(c, Enter(t.p, SentIntroduction, true), 4)
  {
  }

  lemma OfferReply(p: Peer)
    requires O.FilesOk(p.st.files) && p.st.state.SentPairedKeyResult?
    ensures O.OnSetup(p, PairedKeyResultFrame()) == O.OnPairedKeyResult(p, PairedKeyResultFrame().v1.value)
  {
  }

  lemma SenderOffers(c: Plan, s: Peer)
    requires ScriptedMail(c)
    requires SenderPairing(c, s, 3) && s.st.buffers == Sorted(c.Lib(), c.script.rLetters, 4)
    requires HonestChannel(c.sEnv, c.rEnv)
    requires O.FilesOk(s.st.files)
    ensures var t := O.OnSetup(Counted(s), PairedKeyResultFrame()); t.r.Ok? && SenderPairing(c, t.p, 4)
  {
    OfferReply(Counted(s));
    OutboundSafety.IntroductionSent(Counted(s), PairedKeyResultFrame().v1.value);
    var q := OutboundSafety.Listed(Counted(s));
    SendLetterWired(q, 4, IntroductionFrame(Offer(c.sEnv).list));
    SenderHasOffered(c, s, SendEncrypted(q, IntroductionFrame(Offer(c.sEnv).list)));
  }
}
