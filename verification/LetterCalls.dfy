/** How often the sharing state machine runs: the calls of `process_transfer_setup` in a run, against the frames
    the run acts on, with the chunks of other payloads in between. */
module LetterCalls {
  import opened Wrappers
  import opened Messages
  import opened Libraries
  import opened SecureChannel
  import opened Peers
  import opened Reassembly
  import opened Sessions
  import opened ChannelOrder
  import I = Inbound
  import O = Outbound
  import InboundSafety
  import OutboundSafety

  // --- What a run completes ------------------------------------------------------------------------

  /** The byte chunks among the frames. */
  function Chunks(frames: seq<V1Frame>): seq<Item> {
    if |frames| == 0 then [] else ChunkOf(frames[0]) + Chunks(frames[1..])
  }

  function ChunkOf(v1: V1Frame): (items: seq<Item>)
    ensures |items| <= 1
  {
    match v1
    case Payload(Some(PayloadTransfer(Some(header), Some(chunk)))) =>
      if header.ptype.BytesPayload? then [Item(header, chunk)] else []
    case _ => []
  }

  function AsList(parcel: Option<Parcel>): seq<Parcel> {
    match parcel
    case None => []
    case Some(x) => [x]
  }

  /** The payloads that a run completes, in order. */
  function Completed(handle: Handler, p: Peer, events: seq<Event>): seq<Parcel>
    decreases |events|
  {
    if |events| == 0 then []
    else
      var s := handle(p, events[0]);
      AsList(CompletedBy(p, events[0])) + if s.r.Err? then [] else Completed(handle, s.p, events[1..])
  }

  /** A handler that feeds every chunk it hears to its buffer, and stops at one that does not fit. */
  ghost predicate Feeds(handle: Handler, good: Peer -> bool) {
    forall p: Peer, e | good(p) ::
      var c := Collect(p, Chunks(HeardIn(p, e)));
      && AsList(CompletedBy(p, e)) == c.complete
      && (handle(p, e).r.Ok? ==>
            good(handle(p, e).p) && c.ok && handle(p, e).p.st.buffers == c.p.st.buffers)
  }

  lemma {:induction false} CollectSame(p: Peer, q: Peer, items: seq<Item>)
    requires p.st.buffers == q.st.buffers
    ensures var c, d := Collect(p, items), Collect(q, items);
            c.complete == d.complete && c.ok == d.ok && c.p.st.buffers == d.p.st.buffers
    decreases |items|
  {
    if |items| > 0 {
      var item := items[0];
      CollectSame(Gather(p, item.header, item.chunk).p, Gather(q, item.header, item.chunk).p, items[1..]);
    }
  }

  lemma {:induction false} CollectOn(p: Peer, first: seq<Item>, rest: seq<Item>)
    requires |first| <= 1 && Collect(p, first).ok
    ensures var c, d := Collect(p, first), Collect(p, first + rest);
            d.complete == c.complete + Collect(c.p, rest).complete && d.ok == Collect(c.p, rest).ok
  {
    if |first| == 0 {
      assert first + rest == rest;
    } else {
      assert (first + rest)[1..] == rest && first[1..] == [];
    }
  }

  lemma {:induction false} ChunksOn(first: seq<V1Frame>, rest: seq<V1Frame>)
    requires |first| <= 1
    ensures Chunks(first + rest) == Chunks(first) + Chunks(rest) && |Chunks(first)| <= 1
  {
    if |first| == 0 {
      assert first + rest == rest;
    } else {
      assert (first + rest)[1..] == rest && first[1..] == [];
    }
  }

  /** What a run completes is what its heard chunks complete, and a run that goes through has taken them all. */
  lemma {:induction false} CompletedIsCollected(handle: Handler, good: Peer -> bool, p: Peer, events: seq<Event>)
    requires Feeds(handle, good) && good(p)
    ensures var c := Collect(p, Chunks(Heard(handle, p, events)));
            Completed(handle, p, events) == c.complete && (Go(handle, p, events).r.Ok? ==> c.ok)
    decreases |events|
  {
    if |events| > 0 {
      var e, s, rest := events[0], handle(p, events[0]), events[1..];
      var c := Collect(p, Chunks(HeardIn(p, e)));
      assert AsList(CompletedBy(p, e)) == c.complete;
      if s.r.Err? {
        assert HeardIn(p, e) + [] == HeardIn(p, e);
      } else {
        var heard := Heard(handle, s.p, rest);
        CompletedIsCollected(handle, good, s.p, rest);
        ChunksOn(HeardIn(p, e), heard);
        CollectOn(p, Chunks(HeardIn(p, e)), Chunks(heard));
        CollectSame(s.p, c.p, Chunks(heard));
      }
    }
  }

  // --- What completes once -------------------------------------------------------------------------

  /** A run whose byte chunks are those of these letters, one after the other, completes each once and in order. */
  lemma {:induction false} LettersComplete(
    handle: Handler, good: Peer -> bool, p: Peer, events: seq<Event>, l: Library, letters: seq<Letter>)
    requires Feeds(handle, good) && good(p)
    requires Distinct(letters) && Short(l, letters) && Unseen(p, letters)
    requires Chunks(Heard(handle, p, events)) == Items(l, letters)
    ensures Completed(handle, p, events) == Parcels(l, letters)
  {
    CompletedIsCollected(handle, good, p, events);
    EachLetterOnce(l, p, letters);
  }

  /** The chunks taken before one is refused. */
  lemma {:induction false} TakenPart(p: Peer, items: seq<Item>) returns (n: nat)
    ensures n <= |items| && Collect(p, items[..n]).ok && Collect(p, items[..n]).complete == Collect(p, items).complete
    ensures Collect(p, items).ok ==> n == |items|
    decreases |items|
  {
    if |items| == 0 {
      n := 0;
    } else {
      var g := Gather(p, items[0].header, items[0].chunk);
      if g.r.Err? {
        n := 0;
      } else {
        n := TakenPart(g.p, items[1..]);
        n := n + 1;
        assert items[..n][1..] == items[1..][..n - 1];
      }
    }
    assert n == |items| ==> items[..n] == items;
  }

  lemma {:induction false} SelectPrefix(items: seq<Item>, n: nat, id: int)
    requires n <= |items|
    ensures Select(items[..n], id) <= Select(items, id)
    decreases |items|
  {
    if n > 0 {
      SelectPrefix(items[1..], n - 1, id);
      assert items[..n][1..] == items[1..][..n - 1];
      PrefixCons(if items[0].header.id == id then [items[0]] else [],
                 Select(items[1..][..n - 1], id), Select(items[1..], id));
    }
  }

  lemma {:induction false} OneChunk(l: Library, p: Peer, letter: Letter)
    requires letter.id !in p.st.buffers && |l.encShare(letter.frame)| <= SANE_FRAME_LENGTH
    ensures Collect(p, Items(l, [letter])[..1]).complete == []
  {
    FirstChunkStored(p, letter.id, l.encShare(letter.frame));
    assert Items(l, [letter])[..1][1..] == [];
  }

  /** A letter whose two chunks are all there is for its id completes at most once, whatever else is heard and
      however the run ends; and exactly once when both were heard and the run goes through. */
  lemma {:induction false} LetterCompletes(
    handle: Handler, good: Peer -> bool, p: Peer, events: seq<Event>, l: Library, letter: Letter)
    requires Feeds(handle, good) && good(p)
    requires letter.id !in p.st.buffers && |l.encShare(letter.frame)| <= SANE_FRAME_LENGTH
    requires Select(Chunks(Heard(handle, p, events)), letter.id) <= Items(l, [letter])
    ensures Of(Completed(handle, p, events), letter.id) <= [Parcel(letter.id, l.encShare(letter.frame))]
    ensures Go(handle, p, events).r.Ok? && Select(Chunks(Heard(handle, p, events)), letter.id) == Items(l, [letter])
            ==> Of(Completed(handle, p, events), letter.id) == [Parcel(letter.id, l.encShare(letter.frame))]
  {
    var items, id := Chunks(Heard(handle, p, events)), letter.id;
    CompletedIsCollected(handle, good, p, events);
    var n := TakenPart(p, items);
    SelectPrefix(items, n, id);
    Independent(p, p, items[..n], id);
    var chosen := Select(items[..n], id);
    assert items[..|items|] == items;
    if |chosen| == 0 {
      assert chosen == [];
    } else if |chosen| == 1 {
      assert chosen == Items(l, [letter])[..1];
      OneChunk(l, p, letter);
    } else {
      assert chosen == Items(l, [letter]);
      LetterOnce(l, p, items[..n], letter);
    }
  }

  // --- Calls ---------------------------------------------------------------------------------------

  type Setup = (Peer, Event) -> Option<ShareFrame>

  /** The calls of `process_transfer_setup` in a run, with the id of the payload each frame came in. */
  function Calls(handle: Handler, setup: Setup, p: Peer, events: seq<Event>): seq<Letter>
    decreases |events|
  {
    if |events| == 0 then []
    else
      var s := handle(p, events[0]);
      CallIn(setup, p, events[0]) + if s.r.Err? then [] else Calls(handle, setup, s.p, events[1..])
  }

  function CallIn(setup: Setup, p: Peer, e: Event): seq<Letter> {
    if CompletedBy(p, e).Some? && setup(p, e).Some? then [Letter(CompletedBy(p, e).value.id, setup(p, e).value)] else []
  }

  /** Every payload that completes in this run is taken as a sharing frame. */
  ghost predicate Decodes(handle: Handler, setup: Setup, l: Library, p: Peer, events: seq<Event>)
    decreases |events|
  {
    |events| > 0 ==>
      && (CompletedBy(p, events[0]).Some? ==> setup(p, events[0]) == l.decShare(CompletedBy(p, events[0]).value.data))
      && (handle(p, events[0]).r.Ok? ==> Decodes(handle, setup, l, handle(p, events[0]).p, events[1..]))
  }

  function Decoded(l: Library, parcels: seq<Parcel>): seq<Letter> {
    if |parcels| == 0 then []
    else DecodedOne(l, parcels[0]) + Decoded(l, parcels[1..])
  }

  function DecodedOne(l: Library, parcel: Parcel): seq<Letter> {
    match l.decShare(parcel.data)
    case None => []
    case Some(frame) => [Letter(parcel.id, frame)]
  }

  lemma {:induction false} DecodedOn(l: Library, parcel: Option<Parcel>, rest: seq<Parcel>)
    ensures Decoded(l, AsList(parcel) + rest)
         == (match parcel case None => [] case Some(x) => DecodedOne(l, x)) + Decoded(l, rest)
  {
    if parcel.Some? {
      assert (AsList(parcel) + rest)[1..] == rest;
    } else {
      assert AsList(parcel) + rest == rest;
    }
  }

  lemma {:induction false} CallsAreDecoded(handle: Handler, setup: Setup, l: Library, p: Peer, events: seq<Event>)
    requires Decodes(handle, setup, l, p, events)
    ensures Calls(handle, setup, p, events) == Decoded(l, Completed(handle, p, events))
    decreases |events|
  {
    if |events| > 0 {
      var e, s := events[0], handle(p, events[0]);
      var more := if s.r.Err? then [] else Completed(handle, s.p, events[1..]);
      DecodedOn(l, CompletedBy(p, e), more);
      if s.r.Ok? {
        CallsAreDecoded(handle, setup, l, s.p, events[1..]);
      }
    }
  }

  lemma {:induction false} ParcelsDecode(l: Library, letters: seq<Letter>)
    requires LawfulCodecs(l)
    ensures Decoded(l, Parcels(l, letters)) == letters
    decreases |letters|
  {
    if |letters| > 0 {
      ParcelsDecode(l, letters[1..]);
      assert l.decShare(l.encShare(letters[0].frame)) == Some(letters[0].frame);
      assert Parcels(l, letters)[1..] == Parcels(l, letters[1..]);
    }
  }

  /** The calls for one payload id. */
  function CallsFor(calls: seq<Letter>, id: int): seq<Letter> {
    if |calls| == 0 then []
    else (if calls[0].id == id then [calls[0]] else []) + CallsFor(calls[1..], id)
  }

  lemma {:induction false} DecodedFor(l: Library, parcels: seq<Parcel>, id: int)
    ensures CallsFor(Decoded(l, parcels), id) == Decoded(l, Of(parcels, id))
    decreases |parcels|
  {
    if |parcels| > 0 {
      var rest := parcels[1..];
      DecodedFor(l, rest, id);
      var one := DecodedOne(l, parcels[0]);
      if |one| == 1 {
        assert (one + Decoded(l, rest))[1..] == Decoded(l, rest);
      } else {
        assert one + Decoded(l, rest) == Decoded(l, rest);
      }
      DecodedOn(l, if parcels[0].id == id then Some(parcels[0]) else None, Of(rest, id));
    }
  }

  /** A run whose byte chunks are those of these letters calls the state machine for each of them, once and in
      order, whatever comes in between. */
  lemma {:induction false} LettersCalled(
    handle: Handler, good: Peer -> bool, setup: Setup, p: Peer, events: seq<Event>, l: Library, letters: seq<Letter>)
    requires Feeds(handle, good) && good(p) && LawfulCodecs(l) && Decodes(handle, setup, l, p, events)
    requires Distinct(letters) && Short(l, letters) && Unseen(p, letters)
    requires Chunks(Heard(handle, p, events)) == Items(l, letters)
    ensures Calls(handle, setup, p, events) == letters
  {
    LettersComplete(handle, good, p, events, l, letters);
    CallsAreDecoded(handle, setup, l, p, events);
    ParcelsDecode(l, letters);
  }

  lemma {:induction false} OneParcelDecodes(l: Library, letter: Letter, parcels: seq<Parcel>)
    requires LawfulCodecs(l) && parcels <= [Parcel(letter.id, l.encShare(letter.frame))]
    ensures Decoded(l, parcels) == if |parcels| == 0 then [] else [letter]
  {
    assert l.decShare(l.encShare(letter.frame)) == Some(letter.frame);
    if |parcels| == 1 {
      assert parcels[1..] == [];
    }
  }

  /** A letter whose two chunks are all there is for its id leads to at most one call, whatever else is heard and
      however the run ends; and to exactly one when both were heard and the run goes through. */
  lemma {:induction false} LetterCalled(
    handle: Handler, good: Peer -> bool, setup: Setup, p: Peer, events: seq<Event>, l: Library, letter: Letter)
    requires Feeds(handle, good) && good(p) && LawfulCodecs(l) && Decodes(handle, setup, l, p, events)
    requires letter.id !in p.st.buffers && |l.encShare(letter.frame)| <= SANE_FRAME_LENGTH
    requires Select(Chunks(Heard(handle, p, events)), letter.id) <= Items(l, [letter])
    ensures CallsFor(Calls(handle, setup, p, events), letter.id) <= [letter]
    ensures Go(handle, p, events).r.Ok? && Select(Chunks(Heard(handle, p, events)), letter.id) == Items(l, [letter])
            ==> CallsFor(Calls(handle, setup, p, events), letter.id) == [letter]
  {
    LetterCompletes(handle, good, p, events, l, letter);
    CallsAreDecoded(handle, setup, l, p, events);
    DecodedFor(l, Completed(handle, p, events), letter.id);
    OneParcelDecodes(l, letter, Of(Completed(handle, p, events), letter.id));
  }

  // --- Any secure message ----------------------------------------------------------------------------

  /** What a frame completes, and what it leaves in the buffers. */
  lemma {:induction false} ChunkFed(p: Peer, v1: V1Frame)
    ensures var c := Collect(p, ChunkOf(v1));
            && c.ok == !Misfit(p, v1)
            && (c.ok ==> c.p.st.buffers == Fed(p, v1).st.buffers)
  {
    assert |ChunkOf(v1)| == 1 ==> ChunkOf(v1)[1..] == [];
  }

  lemma {:induction false} HeardFed(p: Peer, e: Event)
    requires Rank(p.st.state) >= 4
    ensures AsList(CompletedBy(p, e)) == Collect(p, Chunks(HeardIn(p, e))).complete
    ensures HeardIn(p, e) == [] ==> Collect(p, Chunks(HeardIn(p, e))) == Collected(p, [], true)
    ensures |HeardIn(p, e)| <= 1 && (HeardIn(p, e) != [] ==> Chunks(HeardIn(p, e)) == ChunkOf(HeardIn(p, e)[0]))
  {
    var heard := HeardIn(p, e);
    if |heard| == 1 {
      assert heard[1..] == [] && ChunkOf(heard[0]) + [] == ChunkOf(heard[0]);
      var items := ChunkOf(heard[0]);
      assert |items| == 1 ==> items[1..] == [];
    }
  }

  /** A step that keeps what it should feeds what it hears. */
  lemma {:induction false} StepFeeds(p: Peer, e: Event, q: Peer, s: Step)
    requires Rank(p.st.state) >= 4 && q.st.buffers == p.st.buffers
    requires if HeardIn(p, e) == [] then s.r.Ok? ==> s.p.st.buffers == q.st.buffers
             else var v1 := HeardIn(p, e)[0];
                  s.p.st.buffers == Fed(q, v1).st.buffers && (Misfit(q, v1) ==> s.r.Err?)
    ensures var c := Collect(p, Chunks(HeardIn(p, e)));
            AsList(CompletedBy(p, e)) == c.complete && (s.r.Ok? ==> c.ok && s.p.st.buffers == c.p.st.buffers)
  {
    HeardFed(p, e);
    if HeardIn(p, e) != [] {
      ChunkFed(p, HeardIn(p, e)[0]);
    }
  }

  predicate Secured(p: Peer) {
    Rank(p.st.state) >= 4
  }

  // --- The receiver ------------------------------------------------------------------------------------

  lemma ReceiverSteps(p: Peer, e: Event)
    requires Secured(p)
    ensures var s := I.Handle(p, e);
            && (s.r.Ok? ==> Secured(s.p) && s.p.env == p.env)
            && if HeardIn(p, e) == [] then s.r.Ok? ==> s.p.st.buffers == p.st.buffers
               else var v1, i := HeardIn(p, e)[0], ReceiveSecure(p, e.wire);
                    s.p.st.buffers == Fed(i.p, v1).st.buffers && (Misfit(i.p, v1) ==> s.r.Err?)
  {
    match e {
      case Frame(wire) =>
        if Fits(wire) {
          InboundHandles(p, wire);
          var i := ReceiveSecure(p, wire);
          if i.r.Ok? {
            FrameKeeps(i.p, i.frame);
          }
        }
      case Front(id, action) => ReceiverActs(p, id, action);
      case Closed =>
    }
  }

  lemma {:induction false} ReceiverFeedsOn(p: Peer, e: Event)
    requires Secured(p)
    ensures var s, c := I.Handle(p, e), Collect(p, Chunks(HeardIn(p, e)));
            && AsList(CompletedBy(p, e)) == c.complete
            && (s.r.Ok? ==> Secured(s.p) && s.p.env == p.env && c.ok && s.p.st.buffers == c.p.st.buffers)
  {
    ReceiverSteps(p, e);
    StepFeeds(p, e, if e.Frame? then ReceiveSecure(p, e.wire).p else p, I.Handle(p, e));
  }

  lemma ReceiverFeeds()
    ensures Feeds(I.Handle, Secured)
  {
    forall p: Peer, e | Secured(p)
      ensures var s, c := I.Handle(p, e), Collect(p, Chunks(HeardIn(p, e)));
              && AsList(CompletedBy(p, e)) == c.complete
              && (s.r.Ok? ==> Secured(s.p) && c.ok && s.p.st.buffers == c.p.st.buffers)
    {
      ReceiverFeedsOn(p, e);
    }
  }

  /** No text was announced before any event of the run. */
  ghost predicate NoText(p: Peer, events: seq<Event>)
    decreases |events|
  {
    |events| > 0 ==> p.st.text.None? && (I.Handle(p, events[0]).r.Ok? ==> NoText(I.Handle(p, events[0]).p, events[1..]))
  }

  lemma {:induction false} ReceiverDecodes(p: Peer, events: seq<Event>)
    requires Secured(p) && NoText(p, events)
    ensures Decodes(I.Handle, I.SetupBy, p.env.lib, p, events)
    decreases |events|
  {
    if |events| > 0 && I.Handle(p, events[0]).r.Ok? {
      ReceiverFeedsOn(p, events[0]);
      ReceiverDecodes(I.Handle(p, events[0]).p, events[1..]);
    }
  }

  /** A call is what the machine makes of the event. */
  lemma ReceiverCalls(p: Peer, e: Event)
    requires Secured(p) && I.SetupBy(p, e).Some?
    ensures exists q: Peer :: q == p.(st := p.st.(clientSeq := p.st.clientSeq + 1, buffers := q.st.buffers))
                              && I.Handle(p, e) == I.OnSetup(q, I.SetupBy(p, e).value)
  {
    InboundHandles(p, e.wire);
    var i := ReceiveSecure(p, e.wire);
    var t := i.frame.transfer.value;
    var q := Gather(i.p, t.header.value, t.chunk.value).p;
    assert I.OnV1(i.p, i.frame) == I.OnBytes(i.p, t.header.value, t.chunk.value);
    assert I.Handle(p, e) == I.OnSetup(q, I.SetupBy(p, e).value);
  }

  /** A run of the receiver whose byte chunks are those of these letters calls the sharing state machine for each
      of them, once and in order. */
  lemma {:induction false} ReceiverCallsEach(p: Peer, events: seq<Event>, letters: seq<Letter>)
    requires Secured(p) && NoText(p, events) && LawfulCodecs(p.env.lib)
    requires Distinct(letters) && Short(p.env.lib, letters) && Unseen(p, letters)
    requires Chunks(Heard(I.Handle, p, events)) == Items(p.env.lib, letters)
    ensures Calls(I.Handle, I.SetupBy, p, events) == letters
  {
    ReceiverFeeds();
    ReceiverDecodes(p, events);
    LettersCalled(I.Handle, Secured, I.SetupBy, p, events, p.env.lib, letters);
  }

  /** However other payloads are interleaved and however the run ends: a letter whose two chunks are all that is
      heard for its id is handled at most once, and exactly once when both are heard and the run goes through. */
  lemma {:induction false} ReceiverCallsOnce(p: Peer, events: seq<Event>, letter: Letter)
    requires Secured(p) && NoText(p, events) && LawfulCodecs(p.env.lib)
    requires letter.id !in p.st.buffers && |p.env.lib.encShare(letter.frame)| <= SANE_FRAME_LENGTH
    requires Select(Chunks(Heard(I.Handle, p, events)), letter.id) <= Items(p.env.lib, [letter])
    ensures CallsFor(Calls(I.Handle, I.SetupBy, p, events), letter.id) <= [letter]
    ensures InboundSafety.Run(p, events).r.Ok?
            && Select(Chunks(Heard(I.Handle, p, events)), letter.id) == Items(p.env.lib, [letter])
            ==> CallsFor(Calls(I.Handle, I.SetupBy, p, events), letter.id) == [letter]
  {
    ReceiverFeeds();
    ReceiverDecodes(p, events);
    ReceiverGoes(p, events);
    LetterCalled(I.Handle, Secured, I.SetupBy, p, events, p.env.lib, letter);
  }

  lemma {:induction false} ChunksPrefix(frames: seq<V1Frame>, all: seq<V1Frame>, id: int)
    requires frames <= all
    ensures Select(Chunks(frames), id) <= Select(Chunks(all), id)
    decreases |frames|
  {
    if |frames| > 0 {
      ChunksPrefix(frames[1..], all[1..], id);
      SelectOn(ChunkOf(frames[0]), Chunks(frames[1..]), id);
      SelectOn(ChunkOf(frames[0]), Chunks(all[1..]), id);
      PrefixCons(Select(ChunkOf(frames[0]), id), Select(Chunks(frames[1..]), id), Select(Chunks(all[1..]), id));
    }
  }

  lemma {:induction false} SelectOn(first: seq<Item>, rest: seq<Item>, id: int)
    requires |first| <= 1
    ensures Select(first + rest, id) == Select(first, id) + Select(rest, id)
  {
    if |first| == 1 {
      assert (first + rest)[1..] == rest && first[1..] == [];
    } else {
      assert first + rest == rest;
    }
  }

  /** So whatever a network drops, repeats or reorders, a letter sent once is never handled twice. */
  lemma {:induction false} ReceiverNeverTwice(
    mine: Peer, base: nat, p: Peer, arrivals: seq<Arrival>, letter: Letter)
    requires Sound(mine, base, p) && AllGenuine(mine, base, arrivals) && NoText(p, Events(mine, base, arrivals))
    requires letter.id !in p.st.buffers && |p.env.lib.encShare(letter.frame)| <= SANE_FRAME_LENGTH
    requires Select(Chunks(SentFrom(mine.sent, p.st.clientSeq)), letter.id) == Items(p.env.lib, [letter])
    ensures CallsFor(Calls(I.Handle, I.SetupBy, p, Events(mine, base, arrivals)), letter.id) <= [letter]
  {
    var events := Events(mine, base, arrivals);
    ReceiverHears(mine, base, p, arrivals);
    ChunksPrefix(Heard(I.Handle, p, events), SentFrom(mine.sent, p.st.clientSeq), letter.id);
    ReceiverCallsOnce(p, events, letter);
  }

  // --- The sender --------------------------------------------------------------------------------------

  // The sender's states between events, once it expects secure messages.
  ghost predicate SecuredSender(p: Peer) {
    Sender(p) && Secured(p)
  }

  lemma SenderSteps(p: Peer, e: Event)
    requires SecuredSender(p)
    ensures var s := O.Handle(p, e);
            && (s.r.Ok? ==> Secured(s.p) && s.p.env == p.env)
            && if HeardIn(p, e) == [] then s.r.Ok? ==> s.p.st.buffers == p.st.buffers
               else var v1, i := HeardIn(p, e)[0], ReceiveSecure(p, e.wire);
                    s.p.st.buffers == Fed(i.p, v1).st.buffers && (Misfit(i.p, v1) ==> s.r.Err?)
  {
    match e {
      case Frame(wire) =>
        if Fits(wire) {
          OutboundHandles(p, wire);
          var i := ReceiveSecure(p, wire);
          if i.r.Ok? {
            SenderFrameKeeps(i.p, i.frame);
          }
        }
      case Front(id, action) => SenderActs(p, id, action);
      case Closed =>
    }
  }

  lemma SenderGood(p: Peer, e: Event)
    requires SecuredSender(p) && O.Handle(p, e).r.Ok?
    ensures Sender(O.Handle(p, e).p)
  {
    match e {
      case Frame(_) => SenderStays(p, e);
      case Front(id, action) => SenderActs(p, id, action);
      case Closed =>
    }
  }

  lemma {:induction false} SenderFeedsOn(p: Peer, e: Event)
    requires SecuredSender(p)
    ensures var s, c := SenderHandle(p, e), Collect(p, Chunks(HeardIn(p, e)));
            && AsList(CompletedBy(p, e)) == c.complete
            && (s.r.Ok? ==> SecuredSender(s.p) && s.p.env == p.env && c.ok && s.p.st.buffers == c.p.st.buffers)
  {
    SenderSteps(p, e);
    StepFeeds(p, e, if e.Frame? then ReceiveSecure(p, e.wire).p else p, O.Handle(p, e));
    if O.Handle(p, e).r.Ok? {
      SenderGood(p, e);
    }
  }

  lemma SenderFeeds()
    ensures Feeds(SenderHandle, p => SecuredSender(p))
  {
    forall p: Peer, e | SecuredSender(p)
      ensures var s, c := SenderHandle(p, e), Collect(p, Chunks(HeardIn(p, e)));
              && AsList(CompletedBy(p, e)) == c.complete
              && (s.r.Ok? ==> SecuredSender(s.p) && c.ok && s.p.st.buffers == c.p.st.buffers)
    {
      SenderFeedsOn(p, e);
    }
  }

  lemma {:induction false} SenderDecodes(p: Peer, events: seq<Event>)
    requires SecuredSender(p)
    ensures Decodes(SenderHandle, O.SetupBy, p.env.lib, p, events)
    decreases |events|
  {
    if |events| > 0 && SenderHandle(p, events[0]).r.Ok? {
      SenderFeedsOn(p, events[0]);
      SenderDecodes(SenderHandle(p, events[0]).p, events[1..]);
    }
  }

  lemma SenderCalls(p: Peer, e: Event)
    requires SecuredSender(p) && O.SetupBy(p, e).Some?
    ensures exists q: Peer :: q == p.(st := p.st.(clientSeq := p.st.clientSeq + 1, buffers := q.st.buffers))
                              && O.Handle(p, e) == O.OnSetup(q, O.SetupBy(p, e).value)
  {
    OutboundHandles(p, e.wire);
    var i := ReceiveSecure(p, e.wire);
    var t := i.frame.transfer.value;
    var q := Gather(i.p, t.header.value, t.chunk.value).p;
    assert O.OnV1(i.p, i.frame) == O.OnBytes(i.p, t.header.value, t.chunk.value);
    assert O.Handle(p, e) == O.OnSetup(q, O.SetupBy(p, e).value);
  }

  /** The same for the sender: letters one after the other are handled once each and in order. */
  lemma {:induction false} SenderCallsEach(p: Peer, events: seq<Event>, letters: seq<Letter>)
    requires SecuredSender(p) && LawfulCodecs(p.env.lib)
    requires Distinct(letters) && Short(p.env.lib, letters) && Unseen(p, letters)
    requires Chunks(Heard(SenderHandle, p, events)) == Items(p.env.lib, letters)
    ensures Calls(SenderHandle, O.SetupBy, p, events) == letters
  {
    SenderFeeds();
    SenderDecodes(p, events);
    LettersCalled(SenderHandle, q => SecuredSender(q), O.SetupBy, p, events, p.env.lib, letters);
  }

  /** And one among other payloads at most once, exactly once when both its chunks are heard and the run goes
      through. */
  lemma {:induction false} SenderCallsOnce(p: Peer, events: seq<Event>, letter: Letter)
    requires SecuredSender(p) && OutboundSafety.SensibleRun(p, events) && LawfulCodecs(p.env.lib)
    requires letter.id !in p.st.buffers && |p.env.lib.encShare(letter.frame)| <= SANE_FRAME_LENGTH
    requires Select(Chunks(Heard(SenderHandle, p, events)), letter.id) <= Items(p.env.lib, [letter])
    ensures CallsFor(Calls(SenderHandle, O.SetupBy, p, events), letter.id) <= [letter]
    ensures OutboundSafety.Run(p, events).r.Ok?
            && Select(Chunks(Heard(SenderHandle, p, events)), letter.id) == Items(p.env.lib, [letter])
            ==> CallsFor(Calls(SenderHandle, O.SetupBy, p, events), letter.id) == [letter]
  {
    SenderFeeds();
    SenderDecodes(p, events);
    SenderGoes(p, events);
    LetterCalled(SenderHandle, q => SecuredSender(q), O.SetupBy, p, events, p.env.lib, letter);
  }
}
