/** Byte conservation on the receiving side against any peer: the announced total is a 64-bit sum that wraps
    around, so it covers the announced files exactly when a condition on the announced sizes holds. */
module InboundLedger {
  import opened Wrappers
  import opened Messages
  import opened Libraries
  import opened SecureChannel
  import opened Peers
  import opened Inbound
  import opened InboundSafety
  import opened Ledgers

  // --- The announced total -------------------------------------------------------------------------

  /** The sum of the first k announced sizes, each read as unsigned, without wrapping. */
  function SumOfSizes(list: seq<FileMetadata>, k: nat): int
    requires k <= |list|
  {
    if k == 0 then 0 else SumOfSizes(list, k - 1) + AsU64(list[k - 1].size)
  }

  /** The sizes a protobuf int64 can carry. */
  predicate Int64Sizes(list: seq<FileMetadata>) {
    forall i | 0 <= i < |list| :: -0x8000_0000_0000_0000 <= list[i].size < 0x8000_0000_0000_0000
  }

  lemma WrapIsModulo(a: int, b: int)
    requires 0 <= b < U64
    ensures WrapAdd(a % U64, b) == (a + b) % U64
  {
    var q, r := a / U64, a % U64;
    assert a + b == U64 * q + (r + b);
  }

  /** The loop's total is the sum modulo 2^64. */
  lemma {:induction false} TotalWraps(existing: set<string>, list: seq<FileMetadata>, k: nat)
    requires k <= |list| && Int64Sizes(list)
    ensures Taken(map[], existing, list, k).total == SumOfSizes(list, k) % U64
  {
    if k > 0 {
      TotalWraps(existing, list, k - 1);
      WrapIsModulo(SumOfSizes(list, k - 1), AsU64(list[k - 1].size));
    }
  }

  /** The files the intake keeps never need more than the unwrapped sum. */
  lemma {:induction false} IntakeCovered(existing: set<string>, list: seq<FileMetadata>, k: nat)
    requires k <= |list| && Int64Sizes(list)
    ensures Outstanding(Taken(map[], existing, list, k).files) <= SumOfSizes(list, k)
  {
    if k > 0 {
      IntakeCovered(existing, list, k - 1);
      var i, f := Taken(map[], existing, list, k - 1), list[k - 1];
      PutIn(i.files, f.payloadId, Taken(map[], existing, list, k).files[f.payloadId]);
    }
  }

  /** What a file of this announced size needs. */
  function Need(f: FileMetadata): nat {
    if f.size < 0 then 0 else f.size
  }

  // Entry i is not repeated below k: no later entry has its id.
  predicate Last(list: seq<FileMetadata>, i: nat, k: nat)
    requires i < k <= |list|
  {
    forall j | i < j < k :: list[j].payloadId != list[i].payloadId
  }

  /** What the last entry of each id needs, over entries i to k. */
  function LastSizes(list: seq<FileMetadata>, i: nat, k: nat): nat
    requires i <= k <= |list|
    decreases k - i
  {
    if i == k then 0 else (if Last(list, i, k) then Need(list[i]) else 0) + LastSizes(list, i + 1, k)
  }

  /** What the last entry with this id needs, if there is one. */
  function LastFor(list: seq<FileMetadata>, i: nat, k: nat, id: int): nat
    requires i <= k <= |list|
    decreases k - i
  {
    if i == k then 0
    else (if list[i].payloadId == id && Last(list, i, k) then Need(list[i]) else 0) + LastFor(list, i + 1, k, id)
  }

  lemma LastNext(list: seq<FileMetadata>, i: nat, k: nat)
    requires i < k < |list|
    ensures Last(list, i, k + 1) <==> Last(list, i, k) && list[i].payloadId != list[k].payloadId
  {
  }

  /** One more entry replaces the last one of its id. */
  lemma {:induction false} LastSizesNext(list: seq<FileMetadata>, i: nat, k: nat)
    requires i <= k < |list|
    ensures LastSizes(list, i, k + 1) == LastSizes(list, i, k) - LastFor(list, i, k, list[k].payloadId) + Need(list[k])
    decreases k - i
  {
    if i < k {
      LastNext(list, i, k);
      LastSizesNext(list, i + 1, k);
    } else {
      assert Last(list, k, k + 1);
    }
  }

  lemma {:induction false} LastForNext(list: seq<FileMetadata>, i: nat, k: nat, id: int)
    requires i <= k < |list|
    ensures LastFor(list, i, k + 1, id) == if list[k].payloadId == id then Need(list[k]) else LastFor(list, i, k, id)
    decreases k - i
  {
    if i < k {
      LastNext(list, i, k);
      LastForNext(list, i + 1, k, id);
    } else {
      assert Last(list, k, k + 1);
    }
  }

  /** The table keeps the last entry of each id. */
  lemma {:induction false} TakenLast(existing: set<string>, list: seq<FileMetadata>, k: nat, id: int)
    requires k <= |list|
    ensures var files := Taken(map[], existing, list, k).files;
            LastFor(list, 0, k, id) == if id in files then Left(files[id]) else 0
  {
    if k > 0 {
      TakenLast(existing, list, k - 1, id);
      LastForNext(list, 0, k - 1, id);
    }
  }

  /** So what it needs can be read off the list. */
  lemma {:induction false} IntakeNeeds(existing: set<string>, list: seq<FileMetadata>, k: nat)
    requires k <= |list|
    ensures Outstanding(Taken(map[], existing, list, k).files) == LastSizes(list, 0, k)
  {
    if k > 0 {
      IntakeNeeds(existing, list, k - 1);
      var files, id := Taken(map[], existing, list, k - 1).files, list[k - 1].payloadId;
      TakenLast(existing, list, k - 1, id);
      LastSizesNext(list, 0, k - 1);
      PutIn(files, id, Taken(map[], existing, list, k).files[id]);
    }
  }

  // Ordinary announcements: no id twice, no negative size.
  predicate Plain(list: seq<FileMetadata>) {
    && (forall i | 0 <= i < |list| :: 0 <= list[i].size < 0x8000_0000_0000_0000)
    && (forall i, j | 0 <= i < j < |list| :: list[i].payloadId != list[j].payloadId)
  }

  lemma {:induction false} PlainIntake(existing: set<string>, list: seq<FileMetadata>, k: nat)
    requires k <= |list| && Plain(list)
    ensures var files := Taken(map[], existing, list, k).files;
            && Outstanding(files) == SumOfSizes(list, k)
            && (forall i | k <= i < |list| :: list[i].payloadId !in files)
  {
    if k > 0 {
      PlainIntake(existing, list, k - 1);
      var i, f := Taken(map[], existing, list, k - 1), list[k - 1];
      PutIn(i.files, f.payloadId, Taken(map[], existing, list, k).files[f.payloadId]);
    }
  }

  // --- The ledger ------------------------------------------------------------------------------------

  /** Acknowledged plus outstanding bytes never exceed the announced total. */
  ghost predicate Ledger(p: Peer) {
    Outlay(p) <= Total(p)
  }

  // The receiver asking about an announced list.
  ghost function Asked(p: Peer, list: seq<FileMetadata>): Peer {
    AskForFiles(Enter(p, WaitingForUserConsent, false), list).p
  }

  lemma {:induction false} AskedCounts(p: Peer, list: seq<FileMetadata>)
    requires p.st.files == map[]
    ensures var i := Taken(map[], p.disk.names, list, |list|);
            Outlay(Asked(p, list)) == Outstanding(i.files) && Total(Asked(p, list)) == i.total
  {
  }

  /** After an introduction the ledger holds exactly when the sizes of the last entries of all ids, negative ones
      left out, fit the wrapped sum of all announced sizes. */
  lemma {:induction false} IntroductionExactly(p: Peer, list: seq<FileMetadata>)
    requires p.st.files == map[] && Int64Sizes(list)
    ensures Ledger(Asked(p, list)) <==> LastSizes(list, 0, |list|) <= SumOfSizes(list, |list|) % U64
  {
    AskedCounts(p, list);
    TotalWraps(p.disk.names, list, |list|);
    IntakeNeeds(p.disk.names, list, |list|);
  }

  /** For an ordinary announcement: exactly when the sizes add up to less than 2^64. */
  lemma {:induction false} PlainIntroduction(p: Peer, list: seq<FileMetadata>)
    requires p.st.files == map[] && Plain(list)
    ensures Ledger(Asked(p, list)) <==> SumOfSizes(list, |list|) < U64
  {
    IntroductionExactly(p, list);
    IntakeNeeds(p.disk.names, list, |list|);
    PlainIntake(p.disk.names, list, |list|);
  }

  /** For any announcement: whenever they do. */
  lemma {:induction false} SmallIntroduction(p: Peer, list: seq<FileMetadata>)
    requires p.st.files == map[] && Int64Sizes(list) && SumOfSizes(list, |list|) < U64
    ensures Ledger(Asked(p, list))
  {
    IntroductionExactly(p, list);
    IntakeNeeds(p.disk.names, list, |list|);
    IntakeCovered(p.disk.names, list, |list|);
  }

  const LARGEST := 0x7FFF_FFFF_FFFF_FFFF

  /** An announcement whose total wraps because a size is negative: 5 bytes are outstanding, the total says 4. */
  lemma NegativeWraps(p: Peer)
    requires p.st.files == map[]
    ensures var q := Asked(p, [FileMetadata(0, "a", -1), FileMetadata(1, "b", 5)]);
            Total(q) == 4 && Outlay(q) == 5 && !Ledger(q)
  {
    var list := [FileMetadata(0, "a", -1), FileMetadata(1, "b", 5)];
    var names := p.disk.names;
    AskedCounts(p, list);
    TotalWraps(names, list, 2);
    assert SumOfSizes(list, 1) == U64 - 1 && SumOfSizes(list, 2) == U64 + 4;
    var one, two := Taken(map[], names, list, 1), Taken(map[], names, list, 2);
    assert Taken(map[], names, list, 0).files == map[];
    PutIn(map[], 0, one.files[0]);
    PutIn(one.files, 1, two.files[1]);
  }

  /** An announcement whose total wraps although every size is possible: the total says 5 bytes. */
  lemma PositiveWraps(p: Peer)
    requires p.st.files == map[]
    ensures var list := [FileMetadata(0, "a", LARGEST), FileMetadata(1, "b", LARGEST), FileMetadata(2, "c", 7)];
            Plain(list) && Total(Asked(p, list)) == 5 && !Ledger(Asked(p, list))
  {
    var list := [FileMetadata(0, "a", LARGEST), FileMetadata(1, "b", LARGEST), FileMetadata(2, "c", 7)];
    assert SumOfSizes(list, 1) == LARGEST;
    assert SumOfSizes(list, 2) == 2 * LARGEST;
    assert SumOfSizes(list, 3) == U64 + 5;
    AskedCounts(p, list);
    TotalWraps(p.disk.names, list, 3);
    PlainIntroduction(p, list);
  }

  // --- Over whole runs -----------------------------------------------------------------------------------

  /** Once the files are announced the ledger is kept for good: no event makes it worse. */
  lemma {:induction false} LedgerKept(p: Peer, events: seq<Event>)
    requires Inv(p) && Grounded(p.env) && SensibleRun(p, events)
    requires Rank(p.st.state) >= 7 && Ledger(p)
    ensures Ledger(Run(p, events).p)
  {
    RunSafe(p, events);
  }

  /** Introductions decode to sizes that fit 64 bits, one by one and in sum. */
  predicate SmallOffer(frame: ShareFrame) {
    match frame.v1
    case Some(v1) => v1.introduction.Some? ==>
      var list := v1.introduction.value.files;
      Int64Sizes(list) && SumOfSizes(list, |list|) < U64
    case None => true
  }

  /** The peer's introductions are such, as far as they reach the receiver. */
  ghost predicate SmallRun(p: Peer, events: seq<Event>)
    decreases |events|
  {
    |events| > 0 ==>
      && (SetupBy(p, events[0]).Some? ==> SmallOffer(SetupBy(p, events[0]).value))
      && (Handle(p, events[0]).r.Ok? ==> SmallRun(Handle(p, events[0]).p, events[1..]))
  }

  // Nothing announced, nothing counted.
  predicate Unannounced(p: Peer) {
    p.st.files == map[] && p.st.meta.None?
  }

  lemma IntroductionLedger(p: Peer, v1: ShareV1)
    requires Unannounced(p) && SmallOffer(ShareFrame(Some(v1)))
    ensures Ledger(ProcessIntroduction(p, v1).p)
  {
    if v1.introduction.Some? {
      SmallIntroduction(p, v1.introduction.value.files);
    }
  }

  lemma SetupLedger(p: Peer, frame: ShareFrame)
    requires Unannounced(p) && SmallOffer(frame)
    ensures Ledger(OnSetup(p, frame).p)
  {
    if frame.v1.Some? {
      IntroductionLedger(p, frame.v1.value);
    }
  }

  lemma BytesLedger(p: Peer, header: PayloadHeader, chunk: PayloadChunk)
    requires Unannounced(p)
    requires var g := Gather(p, header, chunk);
             g.complete.Some? && p.st.text != Some(header.id) && p.env.lib.decShare(g.complete.value).Some?
             ==> SmallOffer(p.env.lib.decShare(g.complete.value).value)
    ensures Ledger(OnBytes(p, header, chunk).p)
  {
    var g := Gather(p, header, chunk);
    if g.complete.Some? && p.st.text != Some(header.id) && p.env.lib.decShare(g.complete.value).Some? {
      SetupLedger(g.p, p.env.lib.decShare(g.complete.value).value);
    }
  }

  lemma SecureLedger(p: Peer, wire: Bytes)
    requires Unannounced(p) && Rank(p.st.state) >= 4 && Fits(wire)
    requires SetupBy(p, Frame(wire)).Some? ==> SmallOffer(SetupBy(p, Frame(wire)).value)
    ensures Ledger(OnSecure(p, wire).p)
  {
    var i := ReceiveSecure(p, wire);
    if i.r.Ok? {
      match i.frame {
        case Payload(Some(PayloadTransfer(Some(header), Some(chunk)))) =>
          if header.ptype.BytesPayload? {
            BytesLedger(i.p, header, chunk);
          }
        case _ =>
      }
    }
  }

  lemma UntouchedLedger(p: Peer, q: Peer)
    requires Unannounced(p) && Untouched(p, q)
    ensures Ledger(q)
  {
  }

  lemma HelloLedger(p: Peer, wire: Bytes)
    requires Unannounced(p) && Running(p.st.state) && (Rank(p.st.state) < 4 || !Fits(wire))
    ensures Ledger(OnFrame(p, wire).p)
  {
    UntouchedLedger(p, OnFrame(p, wire).p);
  }

  lemma FrameLedger(p: Peer, wire: Bytes)
    requires Unannounced(p) && Running(p.st.state)
    requires SetupBy(p, Frame(wire)).Some? ==> SmallOffer(SetupBy(p, Frame(wire)).value)
    ensures Ledger(OnFrame(p, wire).p)
  {
    if Rank(p.st.state) >= 4 && Fits(wire) {
      SecureLedger(p, wire);
    } else {
      HelloLedger(p, wire);
    }
  }

  lemma HandleLedger(p: Peer, e: Event)
    requires Inv(p) && Grounded(p.env) && Sensible(p, e) && Ledger(p)
    requires SetupBy(p, e).Some? ==> SmallOffer(SetupBy(p, e).value)
    ensures Ledger(Handle(p, e).p)
  {
    if Rank(p.st.state) >= 7 {
      HandleSafe(p, e);
    } else if e.Frame? {
      FrameLedger(p, e.wire);
    }
  }

  /** Against any peer, as long as the introductions it gets through announce less than 2^64 bytes, acknowledged
      plus outstanding bytes never exceed the announced total. */
  lemma {:induction false} LedgerAlways(p: Peer, events: seq<Event>)
    requires Inv(p) && Grounded(p.env) && SensibleRun(p, events) && SmallRun(p, events) && Ledger(p)
    ensures Ledger(Run(p, events).p)
    decreases |events|
  {
    if |events| > 0 {
      HandleSafe(p, events[0]);
      HandleLedger(p, events[0]);
      var s := Handle(p, events[0]);
      if s.r.Ok? {
        LedgerAlways(s.p, events[1..]);
      }
    }
  }
}
