/** The handshake against any peer: what a message must be for a side to go on, what it says about one that is
    not, and the commitment that binds the client's key to its first message. */
module Handshakes {
  import opened Wrappers
  import opened Messages
  import opened Libraries
  import opened SecureChannel
  import opened Peers
  import I = Inbound
  import O = Outbound
  import InboundSafety
  import OutboundSafety
  import EndpointInfo
  import PinCode
  import PointCodec
  import opened ChannelOrder

  // --- Alerts --------------------------------------------------------------------------------------

  /** The alert that goes with a refusal. */
  function AlertFor(reason: Reason): Option<AlertType> {
    match reason
    case UnexpectedType => Some(BadMessageType)
    case BadVersion => Some(BadVersionAlert)
    case BadRandom => Some(BadRandomAlert)
    case BadCipher => Some(BadCipherAlert)
    case BadNextProtocol => Some(BadNextProtocolAlert)
    case _ => None
  }

  /** A refusal: nothing is derived, the state stays, and the alert goes out if there is one for it. */
  ghost predicate Refuses(p: Peer, s: Step, reason: Reason, alert: Option<AlertType>) {
    && s.r == Err(Refused(reason)) && s.p.st.state == p.st.state && s.p.keys == p.keys && s.p.st.pin == p.st.pin
    && s.p.told == p.told
    && s.p.out == p.out + match alert case None => [] case Some(a) => [p.env.lib.encUkey(AlertMsg(a))]
  }

  // --- The client init -------------------------------------------------------------------------------

  /** The first commitment for the supported cipher. */
  ghost predicate FirstSupported(commitments: seq<CipherCommitment>, c: CipherCommitment) {
    exists i | 0 <= i < |commitments| ::
      && commitments[i] == c && c.cipher == P256Sha512
      && forall j | 0 <= j < i :: commitments[j].cipher != P256Sha512
  }

  ghost predicate NoneSupported(commitments: seq<CipherCommitment>) {
    forall i | 0 <= i < |commitments| :: commitments[i].cipher != P256Sha512
  }

  lemma {:induction false} PreferredIsFirst(commitments: seq<CipherCommitment>)
    ensures match I.Preferred(commitments)
            case None => NoneSupported(commitments)
            case Some(c) => FirstSupported(commitments, c) && !NoneSupported(commitments)
  {
    if |commitments| > 0 && commitments[0].cipher != P256Sha512 {
      var rest := commitments[1..];
      PreferredIsFirst(rest);
      match I.Preferred(rest) {
        case Some(c) =>
          var i :| 0 <= i < |rest| && rest[i] == c && forall j | 0 <= j < i :: rest[j].cipher != P256Sha512;
          assert commitments[i + 1] == c;
          forall j | 0 <= j < i + 1
            ensures commitments[j].cipher != P256Sha512
          {
            assert j > 0 ==> commitments[j] == rest[j - 1];
          }
        case None =>
          forall i | 0 <= i < |commitments|
            ensures commitments[i].cipher != P256Sha512
          {
            assert i > 0 ==> commitments[i] == rest[i - 1];
          }
      }
    }
  }

  /** What a receiver needs to see. */
  ghost predicate GoodInit(init: ClientInit) {
    init.version == 1 && |init.random| == 32 && !NoneSupported(init.commitments) && init.nextProtocol == NEXT_PROTOCOL
  }

  /** What is wrong with a client init, the first fault first. */
  ghost predicate InitFault(init: ClientInit, reason: Reason) {
    match reason
    case BadVersion => init.version != 1
    case BadRandom => init.version == 1 && |init.random| != 32
    case BadCipher => init.version == 1 && |init.random| == 32 && NoneSupported(init.commitments)
    case BadNextProtocol =>
      && init.version == 1 && |init.random| == 32 && !NoneSupported(init.commitments)
      && init.nextProtocol != NEXT_PROTOCOL
    case _ => false
  }

  lemma {:induction false} InitRefused(p: Peer, wire: Bytes, init: ClientInit, reason: Reason)
    requires p.env.lib.decUkey(wire) == Some(ClientInitMsg(Some(init))) && InitFault(init, reason) && p.io.None?
    ensures Refuses(p, I.OnClientInit(p, wire), reason, AlertFor(reason))
  {
    PreferredIsFirst(init.commitments);
  }

  /** The receiver goes on exactly with a good client init, as far as I/O goes. It keeps the message and its
      first supported commitment, and answers with its own init. */
  lemma {:induction false} ClientInitExactly(p: Peer, wire: Bytes, init: ClientInit)
    requires p.env.lib.decUkey(wire) == Some(ClientInitMsg(Some(init)))
    ensures I.OnClientInit(p, wire).r.Ok? <==> GoodInit(init) && !Broken(p)
    ensures var s := I.OnClientInit(p, wire);
            s.r.Ok? ==>
              && s.p.st.state.SentUkeyServerInit? && s.p.st.hs.clientInit == Some(wire)
              && s.p.st.hs.commitment.Some? && FirstSupported(init.commitments, s.p.st.hs.commitment.value)
              && s.p.keys == p.keys && s.p.out == p.out + [p.env.lib.encUkey(I.ServerInitMessage(p.env))]
  {
    PreferredIsFirst(init.commitments);
  }

  /** Any other message is refused. */
  lemma OtherInitRefused(p: Peer, wire: Bytes)
    requires p.io.None?
    ensures var s := I.OnClientInit(p, wire);
            match p.env.lib.decUkey(wire)
            case None => Refuses(p, s, Undecodable, None)
            case Some(ClientInitMsg(None)) => Refuses(p, s, Undecodable, Some(BadMessageData))
            case Some(ClientInitMsg(Some(_))) => true
            case Some(_) => Refuses(p, s, UnexpectedType, Some(BadMessageType))
  {
  }

  // --- The client finish -----------------------------------------------------------------------------

  /** A finish message with this key. */
  ghost predicate IsFinish(l: Library, wire: Bytes, key: PublicKeyMsg) {
    l.decUkey(wire) == Some(ClientFinishMsg(Some(ClientFinished(Some(key)))))
  }

  /** The digest of the message is the one the client committed to. */
  ghost predicate Committed(p: Peer, wire: Bytes) {
    p.st.hs.commitment.Some? && p.st.hs.commitment.value.commitment == p.env.lib.sha512(wire)
  }

  /** The receiver goes on exactly with the finish message that was committed to, if its key can be used; then it
      has the keys and the PIN of the shared secret. */
  lemma ClientFinishExactly(p: Peer, wire: Bytes)
    ensures var s := I.OnClientFinish(p, wire);
            s.r.Ok? <==> Committed(p, wire) && exists key :: IsFinish(p.env.lib, wire, key) && Derive(p, key).Derived?
    ensures var s := I.OnClientFinish(p, wire);
            s.r.Ok? ==>
              && s.p.st.state.ReceivedUkeyClientFinish?
              && exists key :: IsFinish(p.env.lib, wire, key) && Derive(p, key).Derived?
                               && s.p.keys == Some(I.ServerKeys(Derive(p, key).schedule))
                               && s.p.st.pin == Some(PinCode.Pin(Derive(p, key).schedule.auth))
    ensures I.OnClientFinish(p, wire).r.Err? ==> I.OnClientFinish(p, wire).p.keys == p.keys
  {
    match p.env.lib.decUkey(wire) {
      case Some(ClientFinishMsg(Some(ClientFinished(Some(key))))) => assert IsFinish(p.env.lib, wire, key);
      case _ =>
    }
  }

  /** A finish message with another digest is refused, with nothing moved. */
  lemma WrongCommitment(p: Peer, wire: Bytes, finished: Option<ClientFinished>)
    requires p.env.lib.decUkey(wire) == Some(ClientFinishMsg(finished))
    requires p.st.hs.commitment.Some? && !Committed(p, wire)
    ensures I.OnClientFinish(p, wire) == Step(p, Err(Refused(BadCommitment)))
  {
  }

  lemma NotAFinish(p: Peer, wire: Bytes)
    requires p.io.None?
    ensures var s := I.OnClientFinish(p, wire);
            match p.env.lib.decUkey(wire)
            case None => Refuses(p, s, Undecodable, None)
            case Some(ClientFinishMsg(_)) => true
            case Some(_) => Refuses(p, s, UnexpectedType, Some(BadMessageType))
  {
  }

  // --- The clear messages around them ------------------------------------------------------------------

  /** A connection request that names the device of its sender. */
  ghost predicate Introduces(l: Library, wire: Bytes, device: RemoteDeviceInfo) {
    exists info ::
      && l.decOffline(wire) == Some(OfflineFrame(Some(ConnectionRequest(Some(Some(info))))))
      && EndpointInfo.ParseEndpointInfo(info, l.utf8) == Some(device)
  }

  /** The receiver goes on exactly with such a request, and remembers the device. */
  lemma ConnectionRequestExactly(p: Peer, wire: Bytes)
    ensures var s := I.OnConnectionRequest(p, wire);
            && (s.r.Ok? <==> exists device :: Introduces(p.env.lib, wire, device))
            && (s.r.Ok? ==> s.p.st.state.ReceivedConnectionRequest? && s.p.st.remote.Some?
                            && Introduces(p.env.lib, wire, s.p.st.remote.value))
            && (s.r.Err? ==> s.p == p)
  {
    match p.env.lib.decOffline(wire) {
      case Some(OfflineFrame(Some(ConnectionRequest(Some(Some(info)))))) =>
        var device := EndpointInfo.ParseEndpointInfo(info, p.env.lib.utf8);
        assert device.Some? ==> Introduces(p.env.lib, wire, device.value);
      case _ =>
    }
  }

  /** A message that answers the connection request, one way or the other. */
  ghost predicate Responds(l: Library, wire: Bytes, accepted: Option<bool>) {
    l.decOffline(wire) == Some(OfflineFrame(Some(ConnectionResponse(accepted))))
  }

  /** The receiver answers any connection response, and goes on if it can send; it refuses everything else. */
  lemma ReceiverResponseExactly(p: Peer, wire: Bytes)
    requires p.io.None? && p.keys.Some?
    ensures var s := I.OnConnectionResponse(p, wire);
            if exists accepted :: Responds(p.env.lib, wire, accepted)
            then s.r.Ok? && s.p.st.state.SentConnectionResponse?
                 && p.out + [p.env.lib.encOffline(I.ACCEPT_CONNECTION)] <= s.p.out
            else s.p == p && s.r.Err? && s.r.error.Refused?
  {
    match p.env.lib.decOffline(wire) {
      case Some(OfflineFrame(Some(ConnectionResponse(accepted)))) => assert Responds(p.env.lib, wire, accepted);
      case _ =>
    }
  }

  /** The sender goes on exactly with an accepting response, if it can send. */
  lemma SenderResponseExactly(p: Peer, wire: Bytes)
    requires p.io.None? && p.keys.Some?
    ensures var s := O.OnConnectionResponse(p, wire);
            && (s.r.Ok? <==> Responds(p.env.lib, wire, Some(true)))
            && (s.r.Err? ==> s.p == p)
            && (Responds(p.env.lib, wire, Some(false)) ==> s.r == Err(Refused(ConnectionDenied)))
            && (s.r.Ok? ==> s.p.st.state.SentPairedKeyEncryption?)
  {
  }

  // --- The server init ---------------------------------------------------------------------------------

  ghost predicate IsServerInit(l: Library, wire: Bytes, init: ServerInit) {
    l.decUkey(wire) == Some(ServerInitMsg(Some(init)))
  }

  /** What a sender needs to see. */
  predicate GoodServerInit(init: ServerInit) {
    init.version == 1 && |init.random| == 32 && init.cipher == P256Sha512 && init.publicKey.Some?
  }

  predicate ServerInitFault(init: ServerInit, reason: Reason) {
    match reason
    case BadVersion => init.version != 1
    case BadRandom => init.version == 1 && |init.random| != 32
    case BadCipher => init.version == 1 && |init.random| == 32 && init.cipher != P256Sha512
    case Undecodable => init.version == 1 && |init.random| == 32 && init.cipher == P256Sha512 && init.publicKey.None?
    case _ => false
  }

  lemma {:induction false} ServerInitRefusedFor(p: Peer, wire: Bytes, init: ServerInit, reason: Reason)
    requires IsServerInit(p.env.lib, wire, init) && ServerInitFault(init, reason) && p.io.None?
    ensures Refuses(p, O.OnServerInit(p, wire), reason, AlertFor(reason))
  {
  }

  lemma OtherServerInitRefused(p: Peer, wire: Bytes)
    requires p.io.None?
    ensures var s := O.OnServerInit(p, wire);
            match p.env.lib.decUkey(wire)
            case None => Refuses(p, s, Undecodable, None)
            case Some(ServerInitMsg(None)) => Refuses(p, s, Undecodable, None)
            case Some(ServerInitMsg(Some(_))) => true
            case Some(_) => Refuses(p, s, UnexpectedType, Some(BadMessageType))
  {
  }

  /** What the sender derives, with the server's message noted. */
  function SenderDerivation(p: Peer, wire: Bytes, key: PublicKeyMsg): Derivation {
    Derive(OutboundSafety.Noted(p, wire), key)
  }

  lemma FinalizedSends(p: Peer)
    requires p.io.None? && p.st.hs.clientFinish.Some?
    ensures var s := O.SendFinish(p);
            s.r.Ok? && s.p == p.(out := p.out + [p.st.hs.clientFinish.value, p.env.lib.encOffline(O.ACCEPT_CONNECTION)])
  {
  }

  lemma FinalizedSender(p: Peer, key: PublicKeyMsg)
    requires Derive(p, key).Derived?
    ensures var s, d := O.Finalize(p, key), Derive(p, key).schedule;
            && s.r.Ok? && s.p.keys == Some(O.ClientKeys(d)) && s.p.st.pin == Some(PinCode.Pin(d.auth))
            && s.p.out == p.out && s.p.io == p.io && s.p.env == p.env && s.p.st.hs == p.st.hs
  {
  }

  /** The sender goes on exactly with a good server init whose key can be used; then it has the keys and the PIN
      of the shared secret, and its stored finish message and an accepting response are out. */
  lemma ServerInitExactly(p: Peer, wire: Bytes, init: ServerInit)
    requires IsServerInit(p.env.lib, wire, init) && p.io.None? && p.st.hs.clientFinish.Some?
    ensures var s := O.OnServerInit(p, wire);
            s.r.Ok? <==> GoodServerInit(init) && SenderDerivation(p, wire, init.publicKey.value).Derived?
    ensures var s := O.OnServerInit(p, wire);
            s.r.Ok? ==>
              var d := SenderDerivation(p, wire, init.publicKey.value).schedule;
              && s.p.st.state.SentUkeyClientFinish? && s.p.keys == Some(O.ClientKeys(d))
              && s.p.st.pin == Some(PinCode.Pin(d.auth))
              && s.p.out == p.out + [p.st.hs.clientFinish.value, p.env.lib.encOffline(O.ACCEPT_CONNECTION)]
  {
    if GoodServerInit(init) {
      var q := OutboundSafety.Noted(p, wire);
      var key := init.publicKey.value;
      if Derive(q, key).Derived? {
        FinalizedSender(q, key);
        FinalizedSends(O.Finalize(q, key).p);
      }
    }
  }

  // --- The commitment over whole runs --------------------------------------------------------------------

  /** The commitment is the first supported one of the client init that was read. */
  ghost predicate FromInit(p: Peer) {
    && p.st.hs.clientInit.Some? && p.st.hs.commitment.Some?
    && exists init :: p.env.lib.decUkey(p.st.hs.clientInit.value) == Some(ClientInitMsg(Some(init)))
                      && GoodInit(init) && FirstSupported(init.commitments, p.st.hs.commitment.value)
  }

  /** The finish messages a receiver goes on with. */
  function FinishesRead(p: Peer, events: seq<Event>): seq<Bytes>
    decreases |events|
  {
    if |events| == 0 then []
    else
      var s := I.Handle(p, events[0]);
      FinishIn(p, events[0]) + if s.r.Err? then [] else FinishesRead(s.p, events[1..])
  }

  function FinishIn(p: Peer, e: Event): seq<Bytes> {
    if e.Frame? && p.st.state.SentUkeyServerInit? && I.Handle(p, e).r.Ok? then [e.wire] else []
  }

  /** The receiver has its keys from exactly one finish message, and that is the one the client committed to. */
  ghost predicate ByOneFinish(p: Peer, read: seq<Bytes>) {
    && FromInit(p) && |read| == 1 && Committed(p, read[0])
    && exists key :: IsFinish(p.env.lib, read[0], key)
  }

  /** Where the key exchange stands, with the finish messages read so far. */
  ghost predicate Bound(p: Peer, read: seq<Bytes>) {
    && (Rank(p.st.state) >= 2 && p.st.hs.clientInit.Some? ==> FromInit(p))
    && if p.keys.None? then read == [] else ByOneFinish(p, read)
  }

  lemma HelloSteps(p: Peer, wire: Bytes)
    requires InboundSafety.Inv(p) && Rank(p.st.state) <= 1 && Fits(wire)
    ensures var s := I.Handle(p, Frame(wire));
            && s.p.keys == p.keys && s.p.env == p.env
            && (s.r.Ok? && p.st.state.Initial? ==> s.p.st.hs == p.st.hs && Rank(s.p.st.state) == 1)
            && (s.r.Ok? && p.st.state.ReceivedConnectionRequest? ==> s == I.OnClientInit(p, wire))
  {
  }

  lemma InitRead(p: Peer, wire: Bytes)
    requires I.OnClientInit(p, wire).r.Ok?
    ensures FromInit(I.OnClientInit(p, wire).p)
  {
    match p.env.lib.decUkey(wire) {
      case Some(ClientInitMsg(Some(init))) => ClientInitExactly(p, wire, init);
      case _ =>
    }
  }

  /** Any event up to the client finish. */
  lemma EarlyBound(p: Peer, e: Event)
    requires InboundSafety.Inv(p) && Rank(p.st.state) <= 1 && InboundSafety.Sensible(p, e) && I.Handle(p, e).r.Ok?
    ensures Bound(I.Handle(p, e).p, [])
  {
    if e.Frame? {
      HelloSteps(p, e.wire);
      if p.st.state.ReceivedConnectionRequest? {
        InitRead(p, e.wire);
      }
    }
  }

  lemma FinishStep(p: Peer, wire: Bytes)
    requires p.st.state.SentUkeyServerInit? && I.Handle(p, Frame(wire)).r.Ok?
    ensures I.Handle(p, Frame(wire)) == I.OnClientFinish(p, wire)
    ensures var q := I.Handle(p, Frame(wire)).p;
            q.st.hs == p.st.hs && q.env == p.env && q.st.state.ReceivedUkeyClientFinish?
  {
  }

  lemma FinishBound(p: Peer, e: Event)
    requires InboundSafety.Inv(p) && p.st.state.SentUkeyServerInit? && InboundSafety.Sensible(p, e)
    requires Bound(p, []) && I.Handle(p, e).r.Ok?
    ensures Bound(I.Handle(p, e).p, FinishIn(p, e))
  {
    if e.Frame? {
      FinishStep(p, e.wire);
      ClientFinishExactly(p, e.wire);
    }
  }

  lemma ResponseStep(p: Peer, wire: Bytes)
    requires p.st.state.ReceivedUkeyClientFinish?
    ensures var q := I.Handle(p, Frame(wire)).p;
            q.st.hs == p.st.hs && q.env == p.env && q.keys == p.keys
  {
  }

  /** From the keys on, nothing of this changes. */
  lemma LateSteps(p: Peer, e: Event)
    requires InboundSafety.Inv(p) && Rank(p.st.state) >= 3 && InboundSafety.Sensible(p, e)
    ensures var q := I.Handle(p, e).p; q.st.hs == p.st.hs && q.env == p.env && q.keys == p.keys
  {
    match e {
      case Frame(wire) =>
        if Rank(p.st.state) == 3 {
          ResponseStep(p, wire);
        } else if Fits(wire) {
          InboundHandles(p, wire);
          var i := ReceiveSecure(p, wire);
          if i.r.Ok? {
            FrameKeeps(i.p, i.frame);
          }
        }
      case Front(id, action) =>
        if Rank(p.st.state) >= 4 {
          ReceiverActs(p, id, action);
        }
      case Closed =>
    }
  }

  lemma LateBound(p: Peer, e: Event, read: seq<Bytes>)
    requires InboundSafety.Inv(p) && Rank(p.st.state) >= 3 && InboundSafety.Sensible(p, e) && Bound(p, read)
    ensures Bound(I.Handle(p, e).p, read)
  {
    LateSteps(p, e);
  }

  lemma StepBound(p: Peer, e: Event, read: seq<Bytes>)
    requires InboundSafety.Inv(p) && InboundSafety.Sensible(p, e) && Bound(p, read) && I.Handle(p, e).r.Ok?
    ensures Bound(I.Handle(p, e).p, read + FinishIn(p, e))
  {
    assert read + [] == read && [] + FinishIn(p, e) == FinishIn(p, e);
    if Rank(p.st.state) <= 1 {
      EarlyBound(p, e);
    } else if Rank(p.st.state) == 2 {
      FinishBound(p, e);
    } else {
      LateBound(p, e, read);
    }
  }

  /** A step that ends the session brings no keys. */
  lemma FailedBound(p: Peer, e: Event, read: seq<Bytes>)
    requires InboundSafety.Inv(p) && InboundSafety.Sensible(p, e) && Bound(p, read) && I.Handle(p, e).r.Err?
    ensures var q := I.Handle(p, e).p; q.keys.Some? ==> ByOneFinish(q, read)
  {
    if Rank(p.st.state) >= 3 {
      LateBound(p, e, read);
    } else {
      NoKeysByFailure(p, e);
    }
  }

  lemma NoKeysByFailure(p: Peer, e: Event)
    requires InboundSafety.Inv(p) && InboundSafety.Sensible(p, e) && Rank(p.st.state) <= 2 && I.Handle(p, e).r.Err?
    ensures I.Handle(p, e).p.keys.None?
  {
    if e.Frame? && Fits(e.wire) {
      if p.st.state.SentUkeyServerInit? {
        ClientFinishExactly(p, e.wire);
      } else {
        HelloSteps(p, e.wire);
      }
    }
  }

  lemma Regroup(x: seq<Bytes>, y: seq<Bytes>, z: seq<Bytes>)
    ensures x + y + z == x + (y + z)
  {
  }

  lemma {:induction false} RunBound(p: Peer, events: seq<Event>, read: seq<Bytes>)
    requires InboundSafety.Inv(p) && InboundSafety.Grounded(p.env) && InboundSafety.SensibleRun(p, events)
    requires Bound(p, read)
    ensures var q := InboundSafety.Run(p, events).p;
            q.keys.Some? ==> ByOneFinish(q, read + FinishesRead(p, events))
    decreases |events|
  {
    if |events| == 0 {
      assert read + [] == read;
    } else {
      var s := I.Handle(p, events[0]);
      if s.r.Err? {
        FailedBound(p, events[0], read);
        assert FinishIn(p, events[0]) + [] == [] && read + [] == read;
      } else {
        StepBound(p, events[0], read);
        InboundSafety.HandleSafe(p, events[0]);
        RunBound(s.p, events[1..], read + FinishIn(p, events[0]));
        Regroup(read, FinishIn(p, events[0]), FinishesRead(s.p, events[1..]));
      }
    }
  }

  /** Against any peer: a receiver that has keys has read exactly one finish message, the digest of that message is
      the commitment it holds, and this is the first supported commitment of the client init it has read. */
  lemma {:induction false} KeysCommitted(env: Env, io: Option<nat>, names: set<string>, events: seq<Event>)
    requires InboundSafety.Grounded(env) && InboundSafety.SensibleRun(I.Start(env, io, names), events)
    ensures var p := I.Start(env, io, names);
            InboundSafety.Run(p, events).p.keys.Some?
            ==> ByOneFinish(InboundSafety.Run(p, events).p, FinishesRead(p, events))
  {
    var p := I.Start(env, io, names);
    InboundSafety.StartInv(env, io, names);
    RunBound(p, events, []);
    assert [] + FinishesRead(p, events) == FinishesRead(p, events);
  }

  /** A finish message with another digest ends the run on the spot, without keys. */
  lemma {:induction false} WrongFinishEnds(p: Peer, wire: Bytes, finished: Option<ClientFinished>, rest: seq<Event>)
    requires p.st.state.SentUkeyServerInit? && InboundSafety.Inv(p) && Fits(wire)
    requires p.env.lib.decUkey(wire) == Some(ClientFinishMsg(finished)) && !Committed(p, wire)
    ensures InboundSafety.Run(p, [Frame(wire)] + rest) == Step(p, Err(Refused(BadCommitment))) && p.keys.None?
  {
    WrongCommitment(p, wire, finished);
    assert I.Handle(p, Frame(wire)) == I.OnClientFinish(p, wire);
  }
}
