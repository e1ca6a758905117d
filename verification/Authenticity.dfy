/** Forged messages: whatever bytes arrive on a secured connection, only a message that is signed under the
    receiving key is acted on, and any other ends the session with nothing moved. */
module Authenticity {
  import opened Wrappers
  import opened Messages
  import opened Libraries
  import opened SecureChannel
  import opened Peers
  import opened Sessions
  import opened ChannelOrder
  import opened LetterCalls
  import I = Inbound
  import O = Outbound
  import InboundSafety
  import OutboundSafety

  /** The event is a message signed under this side's receiving key. */
  ghost predicate SignedFor(p: Peer, e: Event) {
    e.Frame? && p.keys.Some? && Signed(p.env.lib, p.keys.value.recvMac, e.wire)
  }

  /** Exactly this is read as a frame: a signed message that carries the next number and decodes to the frame. */
  lemma ReceiveExactly(p: Peer, wire: Bytes, v1: V1Frame)
    ensures ReceiveSecure(p, wire) == Incoming(Counted(p), Ok, v1)
       <==> p.keys.Some? && exists message ::
              && Carries(p.env.lib, p.keys.value, wire, DeviceToDevice(p.st.clientSeq + 1, message))
              && p.env.lib.decOffline(message) == Some(OfflineFrame(Some(v1)))
  {
    if p.keys.Some? {
      var l, keys := p.env.lib, p.keys.value;
      match Open(l, keys, wire) {
        case Message(d2d) => OpenExactly(l, keys, wire, d2d);
        case Refusal(_) =>
      }
      forall d2d | Carries(l, keys, wire, d2d)
        ensures Open(l, keys, wire) == SecureChannel.Message(d2d)
      {
        OpenExactly(l, keys, wire, d2d);
      }
    }
  }

  /** What is wrong with a message that is not signed. */
  function Unsigned(p: Peer, wire: Bytes): Failure {
    Refused(if p.env.lib.decSm(wire).None? then Undecodable else BadSignature)
  }

  lemma UnsignedRefused(p: Peer, wire: Bytes)
    requires p.keys.Some? && !SignedFor(p, Frame(wire))
    ensures ReceiveSecure(p, wire) == Incoming(p, Err(Unsigned(p, wire)), OtherV1)
  {
  }

  /** Nothing is heard, completed or written of a message that is not signed. */
  lemma OnlySignedCounts(p: Peer, e: Event)
    requires p.keys.Some? && !SignedFor(p, e)
    ensures HeardIn(p, e) == [] && CompletedBy(p, e).None? && InboundSafety.EventPiece(p, e).None?
  {
    if e.Frame? {
      UnsignedRefused(p, e.wire);
    }
  }

  // --- The receiver ------------------------------------------------------------------------------

  /** Such a message ends a secured receiver's session; the counter, the files, the disk and what was told are as
      before. */
  lemma ForgeryEndsReceiver(p: Peer, wire: Bytes)
    requires Secured(p) && p.keys.Some? && Fits(wire) && !SignedFor(p, Frame(wire))
    ensures I.Handle(p, Frame(wire)) == Step(p, Err(Unsigned(p, wire)))
  {
    InboundHandles(p, wire);
    UnsignedRefused(p, wire);
  }

  lemma ReceiverStaysSecured(p: Peer, e: Event)
    requires Secured(p) && I.Handle(p, e).r.Ok?
    ensures var q := I.Handle(p, e).p; Secured(q) && q.env == p.env && q.keys == p.keys
  {
    match e {
      case Frame(wire) =>
        if Fits(wire) {
          InboundHandles(p, wire);
          var i := ReceiveSecure(p, wire);
          if i.r.Ok? {
            FrameKeeps(i.p, i.frame);
          }
        }
      case Front(id, action) => ReceiverActs(p, id, action);
      case Closed =>
    }
  }

  lemma ReceiverHeedsSigned(p: Peer, e: Event)
    requires Secured(p) && p.keys.Some? && e.Frame? && I.Handle(p, e).r.Ok?
    ensures SignedFor(p, e)
  {
    if Fits(e.wire) && !SignedFor(p, e) {
      ForgeryEndsReceiver(p, e.wire);
    }
  }

  /** In a run that goes through, every message was signed. */
  lemma {:induction false} ReceiverRunSigned(p: Peer, events: seq<Event>)
    requires Secured(p) && p.keys.Some? && InboundSafety.Run(p, events).r.Ok?
    ensures forall i | 0 <= i < |events| && events[i].Frame? :: SignedFor(p, events[i])
    decreases |events|
  {
    if |events| > 0 {
      var e, rest := events[0], events[1..];
      if e.Frame? {
        ReceiverHeedsSigned(p, e);
      }
      ReceiverStaysSecured(p, e);
      ReceiverRunSigned(I.Handle(p, e).p, rest);
      forall i | 0 <= i < |events| && events[i].Frame?
        ensures SignedFor(p, events[i])
      {
        assert i > 0 ==> events[i] == rest[i - 1];
      }
    }
  }

  /** A forged message anywhere in a run cuts it off: the run is what it was before the forgery. */
  lemma {:induction false} ForgeryCutsReceiver(p: Peer, before: seq<Event>, wire: Bytes, after: seq<Event>)
    requires Secured(p) && p.keys.Some? && Fits(wire) && !SignedFor(p, Frame(wire))
    ensures var s := InboundSafety.Run(p, before);
            InboundSafety.Run(p, before + [Frame(wire)] + after)
            == if s.r.Err? then s else Step(s.p, Err(Unsigned(p, wire)))
    decreases |before|
  {
    var all := before + [Frame(wire)] + after;
    if |before| == 0 {
      ForgeryEndsReceiver(p, wire);
    } else {
      var s := I.Handle(p, before[0]);
      assert all[0] == before[0] && all[1..] == before[1..] + [Frame(wire)] + after;
      if s.r.Ok? {
        ReceiverStaysSecured(p, before[0]);
        ForgeryCutsReceiver(s.p, before[1..], wire, after);
      }
    }
  }

  // --- The sender --------------------------------------------------------------------------------

  lemma ForgeryEndsSender(p: Peer, wire: Bytes)
    requires Secured(p) && p.keys.Some? && Fits(wire) && !SignedFor(p, Frame(wire)) && O.FilesOk(p.st.files)
    ensures O.Handle(p, Frame(wire)) == Step(p, Err(Unsigned(p, wire)))
  {
    OutboundHandles(p, wire);
    UnsignedRefused(p, wire);
  }

  lemma SenderStaysSecured(p: Peer, e: Event)
    requires SecuredSender(p) && SenderHandle(p, e).r.Ok?
    ensures var q := SenderHandle(p, e).p; SecuredSender(q) && q.env == p.env && q.keys == p.keys
  {
    SenderFeedsOn(p, e);
    match e {
      case Frame(wire) =>
        OutboundHandles(p, wire);
        var i := ReceiveSecure(p, wire);
        if i.r.Ok? {
          SenderFrameKeeps(i.p, i.frame);
        }
      case Front(id, action) => SenderActs(p, id, action);
      case Closed =>
    }
  }

  /** The same for the sender. */
  lemma {:induction false} ForgeryCutsSender(p: Peer, before: seq<Event>, wire: Bytes, after: seq<Event>)
    requires SecuredSender(p) && p.keys.Some? && Fits(wire) && !SignedFor(p, Frame(wire))
    ensures var s := Go(SenderHandle, p, before);
            Go(SenderHandle, p, before + [Frame(wire)] + after)
            == if s.r.Err? then s else Step(s.p, Err(Unsigned(p, wire)))
    decreases |before|
  {
    var all := before + [Frame(wire)] + after;
    if |before| == 0 {
      ForgeryEndsSender(p, wire);
    } else {
      var s := SenderHandle(p, before[0]);
      assert all[0] == before[0] && all[1..] == before[1..] + [Frame(wire)] + after;
      if s.r.Ok? {
        SenderStaysSecured(p, before[0]);
        ForgeryCutsSender(s.p, before[1..], wire, after);
      }
    }
  }
}
