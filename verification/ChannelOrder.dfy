/** The secure channel under a network that drops, repeats and reorders messages: what the two requests
    themselves make of such a delivery, mixed with whatever their front ends do. */
module ChannelOrder {
  import opened Wrappers
  import opened Messages
  import opened Libraries
  import opened SecureChannel
  import opened Peers
  import opened Sessions
  import I = Inbound
  import O = Outbound
  import InboundSafety
  import OutboundSafety

  // What reaches a side: one of the messages the other side sent, by position, or its front end's action.
  datatype Arrival = Arrives(j: nat) | Acts(id: string, action: ChannelAction)

  // An arriving message was sent, and is within the frame limit.
  predicate Genuine(mine: Peer, base: nat, a: Arrival) {
    a.Arrives? ==> a.j < |mine.sent| && base + a.j < |mine.out| && Fits(mine.out[base + a.j])
  }

  predicate AllGenuine(mine: Peer, base: nat, arrivals: seq<Arrival>) {
    forall k | 0 <= k < |arrivals| :: Genuine(mine, base, arrivals[k])
  }

  function Deliver(mine: Peer, base: nat, a: Arrival): Event
    requires Genuine(mine, base, a)
  {
    match a
    case Arrives(j) => Frame(mine.out[base + j])
    case Acts(id, action) => Front(id, action)
  }

  function Events(mine: Peer, base: nat, arrivals: seq<Arrival>): (events: seq<Event>)
    requires AllGenuine(mine, base, arrivals)
    ensures |events| == |arrivals|
  {
    if |arrivals| == 0 then []
    else [Deliver(mine, base, arrivals[0])] + Events(mine, base, arrivals[1..])
  }

  /** How long the delivery, of which `count` messages have been read, keeps to the sending order. */
  function InOrder(arrivals: seq<Arrival>, count: int): (n: nat)
    ensures n <= |arrivals|
  {
    if |arrivals| == 0 then 0
    else
      match arrivals[0]
      case Arrives(j) => if j == count then 1 + InOrder(arrivals[1..], count + 1) else 0
      case Acts(_, _) => 1 + InOrder(arrivals[1..], count)
  }

  // How many of the arrivals are messages.
  function MessagesIn(arrivals: seq<Arrival>): nat {
    if |arrivals| == 0 then 0 else (if arrivals[0].Arrives? then 1 else 0) + MessagesIn(arrivals[1..])
  }

  /** It is the longest prefix in which the messages count up from `count`. */
  lemma {:induction false} InOrderMeaning(arrivals: seq<Arrival>, count: int)
    ensures var n := InOrder(arrivals, count);
            && (forall k | 0 <= k < n && arrivals[k].Arrives? :: arrivals[k].j == count + MessagesIn(arrivals[..k]))
            && (n < |arrivals| ==> arrivals[n].Arrives? && arrivals[n].j != count + MessagesIn(arrivals[..n]))
  {
    if |arrivals| > 0 && (arrivals[0].Arrives? ==> arrivals[0].j == count) {
      var rest, next := arrivals[1..], if arrivals[0].Arrives? then count + 1 else count;
      InOrderMeaning(rest, next);
      forall k | 0 < k <= |arrivals|
        ensures MessagesIn(arrivals[..k]) == next - count + MessagesIn(rest[..k - 1])
      {
        assert arrivals[..k][1..] == rest[..k - 1];
      }
      var n := InOrder(rest, next);
      forall k | 0 <= k < 1 + n && arrivals[k].Arrives?
        ensures arrivals[k].j == count + MessagesIn(arrivals[..k])
      {
        if k > 0 {
          assert arrivals[k] == rest[k - 1];
        }
      }
      assert n < |rest| ==> arrivals[1 + n] == rest[n];
    }
  }

  /** What `yours` decrypts and verifies with is what `mine` encrypts and signs with. */
  ghost predicate Sound(mine: Peer, base: nat, yours: Peer) {
    && Sealed(mine, base) && (forall i :: |mine.env.tape.ivs(i)| == 16)
    && yours.env.lib == mine.env.lib && LawfulCodecs(mine.env.lib) && LawfulCipher(mine.env.lib)
    && yours.keys.Some? && Paired(mine.keys.value, yours.keys.value)
    && Rank(yours.st.state) >= 4
  }

  /** What handling a message or an action leaves alone. */
  ghost predicate Kept(p: Peer, q: Peer) {
    && q.env == p.env && q.keys == p.keys && Rank(q.st.state) >= 4
    && q.st.clientSeq == p.st.clientSeq && q.st.buffers == p.st.buffers
    && q.st.hs == p.st.hs && q.st.remote == p.st.remote && q.st.pin == p.st.pin
    && p.out <= q.out && p.sent <= q.sent
  }

  /** A side after the chunk in a frame, if it brings one, has gone to its buffer. */
  function Fed(p: Peer, v1: V1Frame): Peer {
    match v1
    case Payload(Some(PayloadTransfer(Some(header), Some(chunk)))) =>
      if header.ptype.BytesPayload? then Gather(p, header, chunk).p else p
    case _ => p
  }

  /** The chunk does not fit its buffer. */
  predicate Misfit(p: Peer, v1: V1Frame) {
    match v1
    case Payload(Some(PayloadTransfer(Some(header), Some(chunk)))) =>
      header.ptype.BytesPayload? && Gather(p, header, chunk).r.Err?
    case _ => false
  }

  lemma KeptOn(p: Peer, q: Peer, r: Peer)
    requires Kept(p, q) && Kept(q, r)
    ensures Kept(p, r)
  {
  }

  lemma {:induction false} SoundKept(mine: Peer, base: nat, p: Peer, q: Peer)
    requires Sound(mine, base, p) && q.env == p.env && q.keys == p.keys && Rank(q.st.state) >= 4
    ensures Sound(mine, base, q)
  {
  }

  // --- Any side that takes messages in turn ------------------------------------------------------

  type Handler = (Peer, Event) -> Step

  /** A connection's loop over any handler. */
  function Go(handle: Handler, p: Peer, events: seq<Event>): Step
    decreases |events|
  {
    if |events| == 0 then Step(p, Ok)
    else
      var s := handle(p, events[0]);
      if s.r.Err? then s else Go(handle, s.p, events[1..])
  }

  /** The frames a run acts on: those of the messages that open, verify and carry the number it expects. */
  function Heard(handle: Handler, p: Peer, events: seq<Event>): seq<V1Frame>
    decreases |events|
  {
    if |events| == 0 then []
    else
      var s := handle(p, events[0]);
      HeardIn(p, events[0]) + if s.r.Err? then [] else Heard(handle, s.p, events[1..])
  }

  function HeardIn(p: Peer, e: Event): seq<V1Frame> {
    match e
    case Frame(wire) => if Fits(wire) && ReceiveSecure(p, wire).r.Ok? then [ReceiveSecure(p, wire).frame] else []
    case _ => []
  }

  predicate InTurn(p: Peer, a: Arrival) {
    a.Arrives? ==> a.j == p.st.clientSeq
  }

  /** What p, at an arrival, does and hears. Out of turn a message ends the run; in turn it is heard. */
  ghost predicate TakesTurn(mine: Peer, p: Peer, a: Arrival, s: Step, heard: seq<V1Frame>)
    requires a.Arrives? ==> a.j < |mine.sent|
  {
    if !InTurn(p, a) then heard == [] && s == Step(Counted(p), Err(Refused(BadSequence)))
    else if a.Acts? then heard == [] && (s.r.Ok? ==> s.p.st.clientSeq == p.st.clientSeq)
    else
      && heard == (if mine.sent[a.j].v1.Some? then [mine.sent[a.j].v1.value] else [])
      && (s.r.Ok? ==> s.p.st.clientSeq == p.st.clientSeq + 1 && mine.sent[a.j].v1.Some?)
  }

  /** A handler that takes turns, from every good state to good states. */
  ghost predicate TakesTurns(mine: Peer, base: nat, handle: Handler, good: Peer -> bool) {
    forall p: Peer, a: Arrival | good(p) && Genuine(mine, base, a) ::
      var e := Deliver(mine, base, a);
      TakesTurn(mine, p, a, handle(p, e), HeardIn(p, e)) && (handle(p, e).r.Ok? ==> good(handle(p, e).p))
  }

  /** What a run on an interfered delivery comes to, given the run on its in-order part. */
  function Cut(s: Step, whole: bool): Step {
    if whole || s.r.Err? then s else Step(Counted(s.p), Err(Refused(BadSequence)))
  }

  lemma {:induction false} GoesOn(handle: Handler, p: Peer, e: Event, rest: seq<Event>, n: nat)
    requires n <= |rest| && handle(p, e).r.Ok?
    ensures Go(handle, p, [e] + rest) == Go(handle, handle(p, e).p, rest)
    ensures Go(handle, p, ([e] + rest)[..n + 1]) == Go(handle, handle(p, e).p, rest[..n])
  {
    assert ([e] + rest)[1..] == rest;
    assert ([e] + rest)[..n + 1][1..] == rest[..n];
  }

  /** The run is its run on the longest in-order part of the delivery; what follows, if that has not ended
      it, ends it. */
  lemma {:induction false} InOrderGoes(
    mine: Peer, base: nat, handle: Handler, good: Peer -> bool, p: Peer, arrivals: seq<Arrival>)
    requires TakesTurns(mine, base, handle, good) && good(p) && AllGenuine(mine, base, arrivals)
    ensures var events, n := Events(mine, base, arrivals), InOrder(arrivals, p.st.clientSeq);
            Go(handle, p, events) == Cut(Go(handle, p, events[..n]), n == |arrivals|)
    decreases |arrivals|
  {
    if |arrivals| > 0 {
      var e := Deliver(mine, base, arrivals[0]);
      var s := handle(p, e);
      assert TakesTurn(mine, p, arrivals[0], s, HeardIn(p, e));
      if InTurn(p, arrivals[0]) && s.r.Ok? {
        InOrderGoes(mine, base, handle, good, s.p, arrivals[1..]);
        GoesOn(handle, p, e, Events(mine, base, arrivals[1..]), InOrder(arrivals[1..], s.p.st.clientSeq));
      }
    }
  }

  /** The frames sent, from the count-th on. */
  function SentFrom(sent: seq<OfflineFrame>, count: int): seq<V1Frame>
    decreases |sent| - count
  {
    if 0 <= count < |sent| && sent[count].v1.Some? then [sent[count].v1.value] + SentFrom(sent, count + 1) else []
  }

  lemma PrefixCons<T>(first: seq<T>, rest: seq<T>, all: seq<T>)
    requires rest <= all
    ensures first + rest <= first + all
  {
  }

  lemma {:induction false} HeardOn(handle: Handler, p: Peer, e: Event, rest: seq<Event>)
    ensures Heard(handle, p, [e] + rest)
         == HeardIn(p, e) + if handle(p, e).r.Err? then [] else Heard(handle, handle(p, e).p, rest)
  {
    assert ([e] + rest)[1..] == rest;
  }

  lemma HeardNext(mine: Peer, p: Peer, a: Arrival, s: Step, heard: seq<V1Frame>)
    requires (a.Arrives? ==> a.j < |mine.sent|) && TakesTurn(mine, p, a, s, heard)
    ensures heard <= SentFrom(mine.sent, p.st.clientSeq)
    ensures s.r.Ok? ==>
              SentFrom(mine.sent, p.st.clientSeq) == heard + SentFrom(mine.sent, s.p.st.clientSeq)
  {
  }

  /** Whatever arrives, the frames a run acts on are the next ones sent, in order: none is left out and none
      comes twice. */
  lemma {:induction false} HeardInOrder(
    mine: Peer, base: nat, handle: Handler, good: Peer -> bool, p: Peer, arrivals: seq<Arrival>)
    requires TakesTurns(mine, base, handle, good) && good(p) && AllGenuine(mine, base, arrivals)
    ensures Heard(handle, p, Events(mine, base, arrivals)) <= SentFrom(mine.sent, p.st.clientSeq)
    decreases |arrivals|
  {
    if |arrivals| > 0 {
      var a, rest := arrivals[0], Events(mine, base, arrivals[1..]);
      var e := Deliver(mine, base, a);
      var s := handle(p, e);
      HeardNext(mine, p, a, s, HeardIn(p, e));
      HeardOn(handle, p, e, rest);
      if s.r.Ok? {
        HeardInOrder(mine, base, handle, good, s.p, arrivals[1..]);
        PrefixCons(HeardIn(p, e), Heard(handle, s.p, rest), SentFrom(mine.sent, s.p.st.clientSeq));
      }
    }
  }

  // --- The receiver ------------------------------------------------------------------------------

  lemma SendKeeps(p: Peer, q: Peer, frame: OfflineFrame)
    requires Kept(p, q)
    ensures Kept(p, EncryptAndSend(q, frame).p)
  {
  }

  lemma {:induction false} CreatingKeeps(p: Peer, ids: seq<int>)
    requires Rank(p.st.state) >= 4
    ensures Kept(p, I.CreateAll(p, ids).p)
    decreases |ids|
  {
    if |ids| > 0 && ids[0] in p.st.files && !Broken(p) {
      CreatingKeeps(I.Create(Spend(p), ids[0]), ids[1..]);
    }
  }

  lemma LetterKeeps(p: Peer, q: Peer, frame: ShareFrame)
    requires Kept(p, q)
    ensures Kept(p, SendEncrypted(q, frame).p)
  {
  }

  lemma EnterKeeps(p: Peer, q: Peer, state: State)
    requires Kept(p, q) && Rank(state) >= 4
    ensures Kept(p, Enter(q, state, true)) && Kept(p, Enter(q, state, false))
  {
  }

  lemma AcceptKeeps(p: Peer)
    requires Rank(p.st.state) >= 4
    ensures Kept(p, I.AcceptTransfer(p).p)
  {
    var ids := p.env.tape.order(p.st.files.Keys);
    CreatingKeeps(p, ids);
    var q := I.CreateAll(p, ids).p;
    LetterKeeps(p, q, ResponseFrame(Accept));
    EnterKeeps(p, SendEncrypted(q, ResponseFrame(Accept)).p, ReceivingFiles);
  }

  lemma RejectKeeps(p: Peer, reason: ConsentStatus)
    requires Rank(p.st.state) >= 4
    ensures Kept(p, I.RejectTransfer(p, reason).p)
  {
    LetterKeeps(p, p, ResponseFrame(reason));
  }

  lemma ActionKeeps(p: Peer, action: ChannelAction)
    requires Rank(p.st.state) >= 4
    ensures Kept(p, I.OnAction(p, action).p)
  {
    match action {
      case AcceptTransfer => AcceptKeeps(p);
      case RejectTransfer => RejectKeeps(Enter(p, Rejected, true), Reject);
      case CancelTransfer =>
    }
  }

  lemma AskingKeeps(p: Peer, list: seq<FileMetadata>, id: int)
    requires Rank(p.st.state) >= 4
    ensures Kept(p, I.AskForFiles(p, list).p) && Kept(p, I.AskForText(p, id).p)
  {
  }

  lemma IntroductionKeeps(p: Peer, v1: ShareV1)
    requires Rank(p.st.state) >= 4
    ensures Kept(p, I.ProcessIntroduction(p, v1).p)
  {
    var q, s := Enter(p, WaitingForUserConsent, false), I.ProcessIntroduction(p, v1);
    if v1.introduction.Some? {
      var files, texts, wifis := v1.introduction.value.files, v1.introduction.value.texts, v1.introduction.value.wifis;
      if |files| > 0 && |texts| == 0 {
        AskingKeeps(q, files, 0);
      } else if |texts| == 1 && !texts[0].ttype.UnknownText? {
        AskingKeeps(q, files, texts[0].payloadId);
      } else if |texts| != 1 && |wifis| == 1 {
        AskingKeeps(q, files, wifis[0]);
      } else {
        RejectKeeps(q, UnsupportedAttachmentType);
      }
      KeptOn(p, q, s.p);
    }
  }

  lemma SetupKeeps(p: Peer, v1: ShareV1)
    requires Rank(p.st.state) >= 4
    ensures Kept(p, I.OnSetupV1(p, v1).p)
  {
    match p.st.state {
      case SentConnectionResponse =>
        LetterKeeps(p, p, PairedKeyResultFrame());
        EnterKeeps(p, SendEncrypted(p, PairedKeyResultFrame()).p, SentPairedKeyResult);
      case ReceivedPairedKeyResult => IntroductionKeeps(p, v1);
      case _ =>
    }
  }

  lemma EndKeeps(p: Peer, state: State)
    requires Rank(state) >= 4
    ensures Kept(p, End(p, state).p)
  {
  }

  lemma TextKeeps(p: Peer, data: Bytes)
    requires Rank(p.st.state) >= 4
    ensures Kept(p, I.OnText(p, data).p)
  {
    var meta := match p.st.meta case None => None case Some(m) => Some(m.(text := Some(I.Cut(data))));
    var q := p.(st := p.st.(meta := meta));
    EndKeeps(q, Finished);
    KeptOn(p, q, End(q, Finished).p);
  }

  lemma CompleteKeeps(p: Peer, id: int, data: Bytes)
    requires Rank(p.st.state) >= 4
    ensures Kept(p, I.OnComplete(p, id, data).p)
  {
    if p.st.text == Some(id) {
      TextKeeps(p, data);
    } else {
      match p.env.lib.decShare(data) {
        case Some(ShareFrame(Some(v1))) =>
          EndKeeps(p, Cancelled);
          SetupKeeps(p, v1);
        case _ =>
      }
    }
  }

  lemma WriteKeeps(p: Peer, id: int, body: Bytes)
    requires Rank(p.st.state) >= 4 && id in p.st.files
    ensures Kept(p, I.WriteChunk(p, id, body).p)
  {
  }

  lemma CloseKeeps(p: Peer, id: int)
    requires Rank(p.st.state) >= 4
    ensures Kept(p, I.CloseFile(p, id).p)
  {
    var q := p.(st := p.st.(files := p.st.files - {id}));
    if q.st.files == map[] {
      EndKeeps(q, Finished);
      KeptOn(p, q, I.CloseFile(p, id).p);
    }
  }

  lemma FileChunkKeeps(p: Peer, header: PayloadHeader, chunk: PayloadChunk)
    requires Rank(p.st.state) >= 4
    ensures Kept(p, I.OnFileChunk(p, header, chunk).p)
  {
    if header.id in p.st.files {
      WriteKeeps(p, header.id, chunk.body);
      CloseKeeps(p, header.id);
    }
  }

  lemma BytesKeeps(p: Peer, header: PayloadHeader, chunk: PayloadChunk)
    requires Rank(p.st.state) >= 4
    ensures var g, s := Gather(p, header, chunk), I.OnBytes(p, header, chunk);
            Kept(g.p, s.p) && (g.r.Err? ==> s.r.Err?)
  {
    var g := Gather(p, header, chunk);
    if g.complete.Some? {
      CompleteKeeps(g.p, header.id, g.complete.value);
    }
  }

  lemma FrameKeeps(p: Peer, v1: V1Frame)
    requires Rank(p.st.state) >= 4
    ensures Kept(Fed(p, v1), I.OnV1(p, v1).p) && (Misfit(p, v1) ==> I.OnV1(p, v1).r.Err?)
  {
    match v1 {
      case Payload(Some(PayloadTransfer(Some(header), Some(chunk)))) =>
        if header.ptype.BytesPayload? {
          BytesKeeps(p, header, chunk);
        } else {
          FileChunkKeeps(p, header, chunk);
        }
      case KeepAlive(_) => SendKeeps(p, p, OfflineFrame(Some(KeepAlive(true))));
      case _ =>
    }
  }

  lemma InboundHandles(p: Peer, wire: Bytes)
    requires Rank(p.st.state) >= 4 && Fits(wire)
    ensures I.Handle(p, Frame(wire)) == I.OnSecure(p, wire)
  {
  }

  lemma HeardOne(mine: Peer, base: nat, p: Peer, a: Arrival)
    requires Sound(mine, base, p) && Genuine(mine, base, a)
    ensures HeardIn(p, Deliver(mine, base, a))
         == if a.Arrives? && a.j == p.st.clientSeq && mine.sent[a.j].v1.Some? then [mine.sent[a.j].v1.value] else []
  {
    if a.Arrives? {
      MessageRead(mine, base, p, a.j);
    }
  }

  /** Sent message j is handled in its turn, and ends the run out of turn. */
  ghost predicate Reads(mine: Peer, p: Peer, j: nat, s: Step)
    requires j < |mine.sent|
  {
    if p.st.clientSeq != j then s == Step(Counted(p), Err(Refused(BadSequence)))
    else if mine.sent[j].v1.None? then s == Step(Counted(p), Err(Refused(MissingField)))
    else Kept(Fed(Counted(p), mine.sent[j].v1.value), s.p)
  }

  lemma ReadTurn(mine: Peer, base: nat, p: Peer, j: nat, s: Step)
    requires Sound(mine, base, p) && Genuine(mine, base, Arrives(j)) && Reads(mine, p, j, s)
    ensures TakesTurn(mine, p, Arrives(j), s, HeardIn(p, Frame(mine.out[base + j])))
    ensures s.r.Ok? ==> Sound(mine, base, s.p)
  {
    HeardOne(mine, base, p, Arrives(j));
    if s.r.Ok? {
      SoundKept(mine, base, p, s.p);
    }
  }

  lemma ActTurn(mine: Peer, base: nat, p: Peer, a: Arrival, s: Step)
    requires Sound(mine, base, p) && a.Acts? && Kept(p, s.p)
    ensures TakesTurn(mine, p, a, s, []) && Sound(mine, base, s.p)
  {
    SoundKept(mine, base, p, s.p);
  }

  lemma ReceiverReads(mine: Peer, base: nat, p: Peer, j: nat)
    requires Sound(mine, base, p) && Genuine(mine, base, Arrives(j))
    ensures Reads(mine, p, j, I.Handle(p, Frame(mine.out[base + j])))
  {
    MessageRead(mine, base, p, j);
    InboundHandles(p, mine.out[base + j]);
    if p.st.clientSeq == j && mine.sent[j].v1.Some? {
      FrameKeeps(Counted(p), mine.sent[j].v1.value);
    }
  }

  lemma ReceiverActs(p: Peer, id: string, action: ChannelAction)
    requires Rank(p.st.state) >= 4
    ensures Kept(p, I.Handle(p, Front(id, action)).p)
  {
    ActionKeeps(p, action);
  }

  /** The step at an arrival is a turn, and the receiver can go on from it. */
  ghost predicate Turns(mine: Peer, base: nat, p: Peer, a: Arrival, s: Step)
    requires Genuine(mine, base, a)
  {
    TakesTurn(mine, p, a, s, HeardIn(p, Deliver(mine, base, a))) && (s.r.Ok? ==> Sound(mine, base, s.p))
  }

  lemma ReadTurns(mine: Peer, base: nat, p: Peer, a: Arrival, s: Step)
    requires Sound(mine, base, p) && Genuine(mine, base, a) && a.Arrives? && Reads(mine, p, a.j, s)
    ensures Turns(mine, base, p, a, s)
  {
    ReadTurn(mine, base, p, a.j, s);
  }

  lemma ReceiverReadTurn(mine: Peer, base: nat, p: Peer, a: Arrival)
    requires Sound(mine, base, p) && Genuine(mine, base, a) && a.Arrives?
    ensures Turns(mine, base, p, a, I.Handle(p, Deliver(mine, base, a)))
  {
    ReceiverReads(mine, base, p, a.j);
    ReadTurns(mine, base, p, a, I.Handle(p, Deliver(mine, base, a)));
  }

  lemma ReceiverActTurn(mine: Peer, base: nat, p: Peer, a: Arrival)
    requires Sound(mine, base, p) && Genuine(mine, base, a) && a.Acts?
    ensures Turns(mine, base, p, a, I.Handle(p, Deliver(mine, base, a)))
  {
    ReceiverActs(p, a.id, a.action);
    ActTurn(mine, base, p, a, I.Handle(p, Deliver(mine, base, a)));
  }

  lemma ReceiverTurn(mine: Peer, base: nat, p: Peer, a: Arrival)
    requires Sound(mine, base, p) && Genuine(mine, base, a)
    ensures Turns(mine, base, p, a, I.Handle(p, Deliver(mine, base, a)))
  {
    if a.Arrives? {
      ReceiverReadTurn(mine, base, p, a);
    } else {
      ReceiverActTurn(mine, base, p, a);
    }
  }

  lemma ReceiverTakesTurns(mine: Peer, base: nat)
    ensures TakesTurns(mine, base, I.Handle, p => Sound(mine, base, p))
  {
    forall p: Peer, a: Arrival | Sound(mine, base, p) && Genuine(mine, base, a)
      ensures var e := Deliver(mine, base, a);
              var s := I.Handle(p, e);
              TakesTurn(mine, p, a, s, HeardIn(p, e)) && (s.r.Ok? ==> Sound(mine, base, s.p))
    {
      ReceiverTurn(mine, base, p, a);
    }
  }

  lemma {:induction false} ReceiverGoes(p: Peer, events: seq<Event>)
    ensures Go(I.Handle, p, events) == InboundSafety.Run(p, events)
    decreases |events|
  {
    if |events| > 0 && I.Handle(p, events[0]).r.Ok? {
      ReceiverGoes(I.Handle(p, events[0]).p, events[1..]);
    }
  }

  /** Whatever the network drops, repeats or reorders and whatever the user does: the receiver's run is its
      run on the longest in-order part of the delivery, and what follows, if that has not ended it, ends it
      with a bad sequence number. */
  lemma {:induction false} ReceiverInOrder(mine: Peer, base: nat, p: Peer, arrivals: seq<Arrival>)
    requires Sound(mine, base, p) && AllGenuine(mine, base, arrivals)
    ensures var events, n := Events(mine, base, arrivals), InOrder(arrivals, p.st.clientSeq);
            InboundSafety.Run(p, events) == Cut(InboundSafety.Run(p, events[..n]), n == |arrivals|)
  {
    var events, n := Events(mine, base, arrivals), InOrder(arrivals, p.st.clientSeq);
    ReceiverTakesTurns(mine, base);
    InOrderGoes(mine, base, I.Handle, p => Sound(mine, base, p), p, arrivals);
    ReceiverGoes(p, events);
    ReceiverGoes(p, events[..n]);
  }

  /** And the frames it acts on are the next ones sent, in order. */
  lemma {:induction false} ReceiverHears(mine: Peer, base: nat, p: Peer, arrivals: seq<Arrival>)
    requires Sound(mine, base, p) && AllGenuine(mine, base, arrivals)
    ensures Heard(I.Handle, p, Events(mine, base, arrivals)) <= SentFrom(mine.sent, p.st.clientSeq)
  {
    ReceiverTakesTurns(mine, base);
    HeardInOrder(mine, base, I.Handle, p => Sound(mine, base, p), p, arrivals);
  }

  // --- The sender --------------------------------------------------------------------------------

  lemma ReadKeeps(p: Peer, id: int, f: FileInfo, body: Bytes)
    requires Rank(p.st.state) >= 4 && f.handle.Some?
    ensures Kept(p, O.SendRead(p, id, f, body).p)
  {
    SendKeeps(p, p, O.ChunkFrame(id, f, body));
    var s := EncryptAndSend(p, O.ChunkFrame(id, f, body));
    SendKeeps(p, Progress(s.p, s.p.st.files[id := O.Advance(f, |body|)], |body|), O.EndFrame(id, f));
  }

  lemma TurnKeeps(p: Peer, job: seq<int>)
    requires |job| > 0 && O.FilesOk(p.st.files) && Rank(p.st.state) >= 4
    ensures Kept(p, O.Turn(p, job).p)
  {
    var id := job[0];
    if id in p.st.files && p.st.files[id].handle.Some? {
      var f := p.st.files[id];
      ReadKeeps(Spend(p), id, f, O.Slice(p.env.tape, id, f));
    }
  }

  lemma FinishKeeps(p: Peer)
    requires Rank(p.st.state) >= 4
    ensures Kept(p, O.FinishSending(p).p)
  {
    SendKeeps(p, Enter(p, Finished, true), OfflineFrame(Some(Disconnection)));
  }

  lemma {:induction false} LoopKeeps(p: Peer, job: seq<int>)
    requires O.FilesOk(p.st.files) && Rank(p.st.state) >= 4
    ensures Kept(p, O.SendLoop(p, job).p)
    decreases |job|, O.BytesLeft(p.st.files, job)
  {
    if |job| == 0 {
      FinishKeeps(p);
    } else {
      TurnKeeps(p, job);
      O.TurnKeepsFiles(p, job);
      var t := O.Turn(p, job);
      if t.r.Ok? {
        LoopKeeps(t.p, t.job);
      }
    }
  }

  lemma AcceptedKeeps(p: Peer, v1: ShareV1)
    requires O.FilesOk(p.st.files) && Rank(p.st.state) >= 4
    requires v1.stype == ResponseType && v1.response == Some(Accept)
    ensures Kept(p, O.ProcessConsent(p, v1).p)
  {
    var q := O.BeginSending(p);
    LoopKeeps(q, p.env.tape.order(q.st.files.Keys));
  }

  lemma ConsentKeeps(p: Peer, v1: ShareV1)
    requires O.FilesOk(p.st.files) && Rank(p.st.state) >= 4
    ensures Kept(p, O.ProcessConsent(p, v1).p)
  {
    if v1.stype != ResponseType || v1.response.None? {
    } else if v1.response.value == Accept {
      AcceptedKeeps(p, v1);
    } else {
      EndKeeps(p, Disconnected);
    }
  }

  lemma OfferKeeps(p: Peer, v1: ShareV1)
    requires Rank(p.st.state) >= 4
    ensures Kept(p, O.OnPairedKeyResult(p, v1).p)
  {
    var q := OutboundSafety.Listed(p);
    LetterKeeps(p, q, IntroductionFrame(O.Announced(p.env, |p.env.payload|).list));
  }

  lemma SenderSetupKeeps(p: Peer, v1: ShareV1)
    requires O.FilesOk(p.st.files) && Rank(p.st.state) >= 4
    ensures Kept(p, O.OnSetupV1(p, v1).p)
  {
    match p.st.state {
      case SentPairedKeyEncryption =>
        LetterKeeps(p, p, PairedKeyResultFrame());
        EnterKeeps(p, SendEncrypted(p, PairedKeyResultFrame()).p, SentPairedKeyResult);
      case SentPairedKeyResult => OfferKeeps(p, v1);
      case SentIntroduction => ConsentKeeps(p, v1);
      case _ =>
    }
  }

  lemma SenderCompleteKeeps(p: Peer, data: Bytes)
    requires O.FilesOk(p.st.files) && Rank(p.st.state) >= 4
    ensures Kept(p, O.OnComplete(p, data).p)
  {
    match p.env.lib.decShare(data) {
      case Some(ShareFrame(Some(v1))) =>
        EndKeeps(p, Cancelled);
        SenderSetupKeeps(p, v1);
      case _ =>
    }
  }

  lemma SenderBytesKeeps(p: Peer, header: PayloadHeader, chunk: PayloadChunk)
    requires O.FilesOk(p.st.files) && Rank(p.st.state) >= 4
    ensures var g, s := Gather(p, header, chunk), O.OnBytes(p, header, chunk);
            Kept(g.p, s.p) && (g.r.Err? ==> s.r.Err?)
  {
    var g := Gather(p, header, chunk);
    if g.complete.Some? {
      SenderCompleteKeeps(g.p, g.complete.value);
    }
  }

  lemma SenderFrameKeeps(p: Peer, v1: V1Frame)
    requires O.FilesOk(p.st.files) && Rank(p.st.state) >= 4
    ensures Kept(Fed(p, v1), O.OnV1(p, v1).p) && (Misfit(p, v1) ==> O.OnV1(p, v1).r.Err?)
  {
    match v1 {
      case Payload(Some(PayloadTransfer(Some(header), Some(chunk)))) =>
        if header.ptype.BytesPayload? {
          SenderBytesKeeps(p, header, chunk);
        }
      case KeepAlive(_) => SendKeeps(p, p, OfflineFrame(Some(KeepAlive(true))));
      case _ =>
    }
  }

  lemma OutboundHandles(p: Peer, wire: Bytes)
    requires Rank(p.st.state) >= 4 && Fits(wire) && O.FilesOk(p.st.files)
    ensures O.Handle(p, Frame(wire)) == O.OnSecure(p, wire)
  {
  }

  lemma SenderReads(mine: Peer, base: nat, p: Peer, j: nat)
    requires Sound(mine, base, p) && Genuine(mine, base, Arrives(j)) && O.FilesOk(p.st.files)
    ensures Reads(mine, p, j, O.Handle(p, Frame(mine.out[base + j])))
  {
    MessageRead(mine, base, p, j);
    OutboundHandles(p, mine.out[base + j]);
    if p.st.clientSeq == j && mine.sent[j].v1.Some? {
      SenderFrameKeeps(Counted(p), mine.sent[j].v1.value);
    }
  }

  lemma SenderActs(p: Peer, id: string, action: ChannelAction)
    requires Rank(p.st.state) >= 4 && O.FilesOk(p.st.files)
    ensures var s := O.Handle(p, Front(id, action));
            Kept(p, s.p) && (s.r.Ok? ==> s.p == p)
  {
    EndKeeps(p, Cancelled);
  }

  // The sender's states between events.
  ghost predicate Sender(p: Peer) {
    OutboundSafety.Inv(p) && OutboundSafety.DistinctIds(p.env)
  }

  /** The sender's handler, on any state. */
  ghost function SenderHandle(p: Peer, e: Event): Step {
    if O.FilesOk(p.st.files) then O.Handle(p, e) else Step(p, Ok)
  }

  lemma SenderStays(p: Peer, e: Event)
    requires Sender(p) && e.Frame? && O.Handle(p, e).r.Ok?
    ensures Sender(O.Handle(p, e).p)
  {
    OutboundSafety.HandleSafe(p, e);
  }

  lemma SenderTurn(mine: Peer, base: nat, p: Peer, a: Arrival)
    requires Sound(mine, base, p) && Sender(p) && Genuine(mine, base, a)
    ensures var e := Deliver(mine, base, a);
            var s := SenderHandle(p, e);
            TakesTurn(mine, p, a, s, HeardIn(p, e)) && (s.r.Ok? ==> Sound(mine, base, s.p) && Sender(s.p))
  {
    var s := O.Handle(p, Deliver(mine, base, a));
    if a.Arrives? {
      SenderReads(mine, base, p, a.j);
      ReadTurn(mine, base, p, a.j, s);
      if s.r.Ok? {
        SenderStays(p, Deliver(mine, base, a));
      }
    } else {
      SenderActs(p, a.id, a.action);
      ActTurn(mine, base, p, a, s);
    }
  }

  lemma SenderTakesTurns(mine: Peer, base: nat)
    ensures TakesTurns(mine, base, SenderHandle, p => Sound(mine, base, p) && Sender(p))
  {
    forall p: Peer, a: Arrival | Sound(mine, base, p) && Sender(p) && Genuine(mine, base, a)
      ensures var e := Deliver(mine, base, a);
              var s := SenderHandle(p, e);
              TakesTurn(mine, p, a, s, HeardIn(p, e)) && (s.r.Ok? ==> Sound(mine, base, s.p) && Sender(s.p))
    {
      SenderTurn(mine, base, p, a);
    }
  }

  lemma {:induction false} SenderGoes(p: Peer, events: seq<Event>)
    requires Sender(p) && OutboundSafety.SensibleRun(p, events)
    ensures Go(SenderHandle, p, events) == OutboundSafety.Run(p, events)
    decreases |events|
  {
    if |events| > 0 && O.Handle(p, events[0]).r.Ok? {
      OutboundSafety.HandleSafe(p, events[0]);
      SenderGoes(O.Handle(p, events[0]).p, events[1..]);
    }
  }

  lemma {:induction false} SensiblePrefix(p: Peer, events: seq<Event>, n: nat)
    requires Sender(p) && OutboundSafety.SensibleRun(p, events) && n <= |events|
    ensures OutboundSafety.SensibleRun(p, events[..n])
    decreases |events|
  {
    if n > 0 && O.Handle(p, events[0]).r.Ok? {
      OutboundSafety.HandleSafe(p, events[0]);
      SensiblePrefix(O.Handle(p, events[0]).p, events[1..], n - 1);
      assert events[..n][1..] == events[1..][..n - 1];
    }
  }

  /** The same for the sender. */
  lemma {:induction false} SenderInOrder(mine: Peer, base: nat, p: Peer, arrivals: seq<Arrival>)
    requires Sound(mine, base, p) && Sender(p) && AllGenuine(mine, base, arrivals)
    requires OutboundSafety.SensibleRun(p, Events(mine, base, arrivals))
    ensures var events, n := Events(mine, base, arrivals), InOrder(arrivals, p.st.clientSeq);
            && OutboundSafety.SensibleRun(p, events[..n])
            && OutboundSafety.Run(p, events) == Cut(OutboundSafety.Run(p, events[..n]), n == |arrivals|)
  {
    var events, n := Events(mine, base, arrivals), InOrder(arrivals, p.st.clientSeq);
    SenderTakesTurns(mine, base);
    InOrderGoes(mine, base, SenderHandle, p => Sound(mine, base, p) && Sender(p), p, arrivals);
    SensiblePrefix(p, events, n);
    SenderGoes(p, events);
    SenderGoes(p, events[..n]);
  }

  lemma {:induction false} SenderHears(mine: Peer, base: nat, p: Peer, arrivals: seq<Arrival>)
    requires Sound(mine, base, p) && Sender(p) && AllGenuine(mine, base, arrivals)
    ensures Heard(SenderHandle, p, Events(mine, base, arrivals)) <= SentFrom(mine.sent, p.st.clientSeq)
  {
    SenderTakesTurns(mine, base);
    HeardInOrder(mine, base, SenderHandle, p => Sound(mine, base, p) && Sender(p), p, arrivals);
  }
}
