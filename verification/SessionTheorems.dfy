/** What holds of every run of the composed system, in any interleaving of the two sides, the streams and
    the user's acceptance. */
module SessionTheorems {
  import opened Wrappers
  import opened Messages
  import opened Libraries
  import opened SecureChannel
  import opened Peers
  import opened Ledgers
  import opened Reassembly
  import opened Histories
  import opened Sessions
  import opened SessionHandshake
  import opened Delivery
  import opened SessionTransfer
  import opened SessionRuns
  import I = Inbound
  import O = Outbound
  import InboundSafety
  import OutboundSafety
  import ChannelOrder

  // --- Runs ----------------------------------------------------------------------------------------

  /** The state after a move, if the move is possible and every message is within the frame limit. */
  ghost function Next(x: Sys, m: Move): Option<Sys> {
    if Enabled(x, m) && Fitting(x) && O.FilesOk(x.s.st.files) then Some(After(x, m)) else None
  }

  // A run of the system: its moves and its states.
  type Trace = History<Sys, Move>

  /** x is the state of a run after k moves from the opening of the connection. */
  ghost predicate At(c: Config, h: Trace, k: nat, x: Sys) {
    Leads(Init(c), Next, h) && k < |h.states| && h.states[k] == x
  }

  /** Every move keeps the joint invariant. */
  lemma StepJoint(c: Plan, x: Sys, m: Move, y: Sys, gr: Standing, gs: Standing)
      returns (hr: Standing, hs: Standing)
    requires Planned(c) && Joint(c, x, gr, gs) && Next(x, m) == Some(y)
    ensures Joint(c, y, hr, hs)
  {
    hr, hs := gr, gs;
    match m {
      case ToReceiver => hr := ReceiverStepJoint(c, x, gr, gs);
      case ToSender => hs := SenderStepJoint(c, x, gr, gs);
      case SenderTurn => hs := TurnStepJoint(c, x, gr, gs);
      case UserAccepts =>
        AcceptStepJoint(c, x, gr, gs);
        hr := Zero(Offered(c.sEnv));
    }
  }

  ghost function Reached(c: Plan, moves: seq<Move>): Option<Sys> {
    Follow(Init(c.Sides()), Next, moves)
  }

  lemma {:induction false} FollowJoint(c: Plan, moves: seq<Move>) returns (gr: Standing, gs: Standing)
    requires Planned(c) && Reached(c, moves).Some?
    ensures Joint(c, Reached(c, moves).value, gr, gs)
    decreases |moves|
  {
    if |moves| == 0 {
      InitJoint(c);
      gr, gs := Zero(Offered(c.sEnv)), Zero(Offered(c.sEnv));
    } else {
      var before := moves[..|moves| - 1];
      gr, gs := FollowJoint(c, before);
      gr, gs := StepJoint(c, Reached(c, before).value, moves[|moves| - 1], Reached(c, moves).value, gr, gs);
    }
  }

  /** The joint invariant holds at every point of every run. */
  lemma RunJoint(c: Plan, h: Trace, k: nat, x: Sys) returns (gr: Standing, gs: Standing)
    requires Planned(c) && At(c.Sides(), h, k, x)
    ensures Joint(c, x, gr, gs)
  {
    FollowLeads(Init(c.Sides()), Next, h, k);
    gr, gs := FollowJoint(c, h.moves[..k]);
  }

  lemma NoFailure(c: Plan, x: Sys, gr: Standing, gs: Standing)
    requires Joint(c, x, gr, gs)
    ensures x.sEnd.Ok? && (x.rEnd.Ok? || (x.rEnd == Err(NotAnError) && x.r.st.state.Finished?))
    ensures O.FilesOk(x.s.st.files)
  {
    ReceiverWrote(c, x.r, x.rRead, x.accepted, gr);
  }

  /** No honest run fails: the sender never ends, and the receiver ends only on purpose, having finished. */
  lemma NoRunFails(c: Config, h: Trace, k: nat, x: Sys)
    requires Honest(c) && At(c, h, k, x)
    ensures x.sEnd.Ok? && (x.rEnd.Ok? || (x.rEnd == Err(NotAnError) && x.r.st.state.Finished?))
  {
    var p := PlanFor(c);
    var gr, gs := RunJoint(p, h, k, x);
    NoFailure(p, x, gr, gs);
  }

  /** Whatever move is possible can be made: the run goes on with it. */
  lemma RunsGoOn(c: Config, h: Trace, x: Sys, m: Move)
    requires Honest(c) && At(c, h, |h.moves|, x) && Enabled(x, m) && Fitting(x)
    ensures Next(x, m).Some? && At(c, Extended(h, m, Next(x, m).value), |h.moves| + 1, Next(x, m).value)
  {
    var p := PlanFor(c);
    var gr, gs := RunJoint(p, h, |h.moves|, x);
    NoFailure(p, x, gr, gs);
    ExtendedLeads(Init(c), Next, h, m, Next(x, m).value);
  }

  // --- Keys and PINs -----------------------------------------------------------------------------------

  lemma ReceiverKeys(c: Plan, r: Peer, n: nat, accepted: bool, g: Standing)
    requires ReceiverInv(c, r, n, accepted, g)
    ensures if n < 3 then r.keys.None? else ReceiverKeyed(c, r)
  {
  }

  lemma SenderKeys(c: Plan, s: Peer, n: nat, job: Option<seq<int>>, g: Standing)
    requires SenderInv(c, s, n, job, g)
    ensures if n < 1 then s.keys.None? else SenderKeyed(c, s)
  {
  }

  /** Once both sides have keys, each encrypts and signs with what the other decrypts and verifies with, and
      both users see the same PIN. */
  lemma KeysAgree(c: Config, h: Trace, k: nat, x: Sys)
    requires Honest(c) && At(c, h, k, x)
    ensures x.s.keys.Some? && x.r.keys.Some? ==>
              && Paired(x.s.keys.value, x.r.keys.value) && Paired(x.r.keys.value, x.s.keys.value)
              && x.s.st.pin.Some? && x.s.st.pin == x.r.st.pin
  {
    var p := PlanFor(c);
    var gr, gs := RunJoint(p, h, k, x);
    ReceiverKeys(p, x.r, x.rRead, x.accepted, gr);
    SenderKeys(p, x.s, x.sRead, x.job, gs);
  }

  lemma ReceiverListens(c: Plan, r: Peer, n: nat, accepted: bool, g: Standing)
    requires ReceiverInv(c, r, n, accepted, g) && n >= 4
    ensures ReceiverSecure(c, r) && Rank(r.st.state) >= 4
  {
  }

  lemma SenderListens(c: Plan, s: Peer, n: nat, job: Option<seq<int>>, g: Standing)
    requires SenderInv(c, s, n, job, g)
    ensures n >= 1 ==> SenderKeyed(c, s) && Wired(s, 4) && s.env == c.sEnv
    ensures n >= 2 ==> Rank(s.st.state) >= 4
    ensures n < 1 ==> |s.out| == 2
  {
  }

  /** From the moment a side expects secure messages, it stands to the other as `ChannelOrder` asks: whatever a
      network then does to the other's messages, it acts on the next ones only and in order. */
  lemma ChannelSound(c: Config, h: Trace, k: nat, x: Sys)
    requires Honest(c) && At(c, h, k, x)
    ensures x.rRead >= 4 ==> ChannelOrder.Sound(x.s, 4, x.r)
    ensures x.rRead >= 4 && x.sRead >= 2 ==> ChannelOrder.Sound(x.r, 2, x.s)
  {
    var p := PlanFor(c);
    var gr, gs := RunJoint(p, h, k, x);
    SenderListens(p, x.s, x.sRead, x.job, gs);
    if x.rRead >= 4 {
      ReceiverListens(p, x.r, x.rRead, x.accepted, gr);
    }
  }

  // --- Consent -----------------------------------------------------------------------------------------

  lemma {:induction false} PostedCarriesNone(l: Library, letters: seq<Letter>, n: nat)
    requires n <= |letters|
    ensures forall f | f in Posted(l, letters, n) :: !CarriesFile(f)
  {
    if n > 0 {
      PostedCarriesNone(l, letters, n - 1);
    }
  }

  lemma SenderSilent(c: Plan, s: Peer, n: nat, job: Option<seq<int>>, g: Standing)
    requires SenderInv(c, s, n, job, g) && n < 8
    ensures Rank(s.st.state) < 8 && forall f | f in s.sent :: !CarriesFile(f)
  {
    forall k: nat | k <= 3
      ensures forall f | f in Posted(c.Lib(), c.script.sLetters, k) :: !CarriesFile(f)
    {
      PostedCarriesNone(c.Lib(), c.script.sLetters, k);
    }
  }

  lemma ReceiverEmpty(c: Plan, r: Peer, n: nat, g: Standing)
    requires ReceiverInv(c, r, n, false, g)
    ensures Rank(r.st.state) < 8 && r.disk == Disk(c.names, map[], map[])
  {
  }

  /** A sender that sends or has sent files, a file chunk on its way, a file created: each implies that the
      user has accepted. */
  lemma ConsentFirst(c: Config, h: Trace, k: nat, x: Sys)
    requires Honest(c) && At(c, h, k, x)
    ensures !x.accepted ==>
              && Rank(x.s.st.state) < 8 && Rank(x.r.st.state) < 8
              && x.r.disk == Disk(c.names, map[], map[])
              && forall f | f in x.s.sent :: !CarriesFile(f)
  {
    var p := PlanFor(c);
    var gr, gs := RunJoint(p, h, k, x);
    if !x.accepted {
      SenderSilent(p, x.s, x.sRead, x.job, gs);
      ReceiverEmpty(p, x.r, x.rRead, gr);
    }
  }

  // --- Getting to consent, and to the end ----------------------------------------------------------------

  /** Nothing can happen without the user. */
  predicate Waiting(x: Sys) {
    !Enabled(x, ToReceiver) && !Enabled(x, ToSender) && !Enabled(x, SenderTurn)
  }

  lemma AskingPoint(c: Plan, x: Sys, gr: Standing, gs: Standing)
    requires ReceiverInv(c, x.r, x.rRead, false, gr) && SenderInv(c, x.s, x.sRead, x.job, gs)
    requires x.rRead == |x.s.out| && x.sRead == |x.r.out| && x.sRead < 8
    ensures x.s.st.state.SentIntroduction? && x.r.st.state.WaitingForUserConsent? && x.r.told != []
  {
    ReceiverWrote(c, x.r, x.rRead, false, gr);
    SenderWrote(c, x.s, x.sRead, x.job, gs);
  }

  /** The pair cannot get stuck before consent: when nothing can happen without the user and the user has not
      accepted, the sender has sent the introduction and the receiver is asking. */
  lemma NotStuckBeforeConsent(c: Config, h: Trace, k: nat, x: Sys)
    requires Honest(c) && At(c, h, k, x) && Waiting(x)
    ensures !x.accepted ==>
              x.s.st.state.SentIntroduction? && x.r.st.state.WaitingForUserConsent? && Enabled(x, UserAccepts)
  {
    var p := PlanFor(c);
    var gr, gs := RunJoint(p, h, k, x);
    if !x.accepted {
      AskingPoint(p, x, gr, gs);
    }
  }

  lemma {:induction false} NothingOutstanding(table: map<int, FileInfo>)
    requires forall id | id in table :: Left(table[id]) == 0
    ensures Outstanding(table) == 0
    decreases |table|
  {
    if id :| id in table {
      TakeOut(table, id);
      NothingOutstanding(table - {id});
    }
  }

  predicate AllArrived(files: Files, g: Standing) {
    forall id | id in files :: id in g.pos && g.pos[id] == |files[id]|
  }

  predicate NoneEmpty(files: Files) {
    forall id | id in files :: |files[id]| > 0
  }

  /** The sender has nothing to do and nothing to read: it is through, and everything was sent. */
  lemma SenderThrough(c: Plan, x: Sys, gr: Standing, gs: Standing)
    requires ReceiverInv(c, x.r, x.rRead, true, gr) && SenderInv(c, x.s, x.sRead, x.job, gs)
    requires x.job.None? && x.sRead == |x.r.out|
    ensures x.s.st.state.Finished? && SenderAt(Offered(c.sEnv), x.s, [], gs) && AllArrived(Offered(c.sEnv), gs)
    ensures x.sRead >= 8 && |x.s.out| == 4 + |x.s.sent|
  {
    ReceiverWrote(c, x.r, x.rRead, true, gr);
    SenderWrote(c, x.s, x.sRead, x.job, gs);
  }

  lemma ReceiverThrough(c: Plan, x: Sys, gr: Standing, gs: Standing)
    requires 4 <= x.rRead && ReceiverTransferring(c, x.r, x.rRead - 4, gr)
    requires Whole(c, gr) || gr == gs
    requires SenderAt(Offered(c.sEnv), x.s, [], gs) && AllArrived(Offered(c.sEnv), gs)
    ensures AllArrived(Offered(c.sEnv), gr) && (x.r.st.state.Finished? <==> NoneEmpty(Offered(c.sEnv)))
  {
    if NoneEmpty(Offered(c.sEnv)) && gr == gs {
      forall id | id in Offered(c.sEnv)
        ensures id in gr.closed
      {
        assert |Offered(c.sEnv)[id]| > 0 && gs.pos[id] == |Offered(c.sEnv)[id]|;
      }
    }
  }

  /** Both sides have accounted for every byte. */
  predicate Settled(p: Peer) {
    p.st.meta.Some? && p.st.meta.value.ackBytes == p.st.meta.value.totalBytes
  }

  lemma ReceiverSettled(files: Files, r: Peer, g: Standing)
    requires ReceiverAt(files, r, g) && AllArrived(files, g)
    ensures Settled(r) && r.disk.written == files
  {
    NothingOutstanding(r.st.files);
    forall id | id in files
      ensures r.disk.written[id] == files[id]
    {
      assert files[id][..g.pos[id]] == files[id];
    }
  }

  lemma SenderSettled(files: Files, s: Peer, g: Standing)
    requires SenderAt(files, s, [], g) && AllArrived(files, g) && OutboundSafety.Inv(s)
    ensures Settled(s)
  {
    NothingOutstanding(s.st.files);
  }

  /** What the receiver has read plays up to where its files stand; with nothing left to read it stands where
      the sender does. */
  lemma SameStanding(c: Plan, x: Sys, gr: Standing, gs: Standing)
    requires Linked(c, x, gr, gs) && x.sRead >= 8 && x.rRead == |x.s.out| == 4 + |x.s.sent|
    ensures gr == gs
  {
    assert x.s.sent[x.rRead - 4..] == [];
  }

  lemma EndPoint(c: Plan, x: Sys, gr: Standing, gs: Standing)
    requires Joint(c, x, gr, gs) && x.accepted && Waiting(x)
    ensures x.s.st.state.Finished? && Settled(x.s) && Settled(x.r) && x.r.disk.written == Offered(c.sEnv)
    ensures x.r.st.state.Finished? <==> NoneEmpty(Offered(c.sEnv))
  {
    ReceiverWrote(c, x.r, x.rRead, true, gr);
    SenderThrough(c, x, gr, gs);
    if !Whole(c, gr) {
      SameStanding(c, x, gr, gs);
    }
    ReceiverThrough(c, x, gr, gs);
    ReceiverSettled(Offered(c.sEnv), x.r, gr);
    SenderSettled(Offered(c.sEnv), x.s, gs);
  }

  /** End-to-end delivery. When the user has accepted and nothing more can happen, the sender has finished,
      exactly the offered files are on the receiver's disk byte for byte, both sides have accounted for every
      byte, and the receiver has finished exactly when no offered file is empty. */
  lemma FilesDelivered(c: Config, h: Trace, k: nat, x: Sys)
    requires Honest(c) && At(c, h, k, x)
    ensures x.accepted && Waiting(x) ==>
              && x.s.st.state.Finished? && Settled(x.s) && Settled(x.r)
              && x.r.disk.written == Offered(c.sEnv)
              && (x.r.st.state.Finished? <==> NoneEmpty(Offered(c.sEnv)))
  {
    var p := PlanFor(c);
    var gr, gs := RunJoint(p, h, k, x);
    if x.accepted && Waiting(x) {
      EndPoint(p, x, gr, gs);
    }
  }

  lemma ReceiverFinished(c: Plan, r: Peer, n: nat, accepted: bool, g: Standing)
    requires ReceiverInv(c, r, n, accepted, g) && r.st.state.Finished?
    ensures n >= 4 && ReceiverTransferring(c, r, n - 4, g) && AllArrived(Offered(c.sEnv), g)
  {
  }

  lemma SenderFinishes(c: Plan, s: Peer, n: nat, job: Option<seq<int>>, g: Standing)
    requires SenderInv(c, s, n, job, g) && s.st.state.Finished?
    ensures job.None? && SenderAt(Offered(c.sEnv), s, [], g) && AllArrived(Offered(c.sEnv), g)
  {
  }

  /** Whoever says it has finished has: whenever the receiver's state is Finished, even with messages still
      on their way to the sender, exactly the offered files are on its disk and it has accounted for every
      byte; whenever the sender's is, it has sent every byte and accounted for it. */
  lemma FinishedIsWhole(c: Config, h: Trace, k: nat, x: Sys)
    requires Honest(c) && At(c, h, k, x)
    ensures x.r.st.state.Finished? ==> Settled(x.r) && x.r.disk.written == Offered(c.sEnv)
    ensures x.s.st.state.Finished? ==> Settled(x.s)
  {
    var p := PlanFor(c);
    var gr, gs := RunJoint(p, h, k, x);
    if x.r.st.state.Finished? {
      ReceiverFinished(p, x.r, x.rRead, x.accepted, gr);
      ReceiverSettled(Offered(c.sEnv), x.r, gr);
    }
    if x.s.st.state.Finished? {
      SenderFinishes(p, x.s, x.sRead, x.job, gs);
      SenderSettled(Offered(c.sEnv), x.s, gs);
    }
  }

  lemma OnDisk(c: Plan, r: Peer, n: nat, accepted: bool, g: Standing, id: int)
    requires ReceiverInv(c, r, n, accepted, g) && id in r.disk.written
    ensures id in Offered(c.sEnv) && r.disk.written[id] <= Offered(c.sEnv)[id]
  {
    if !accepted {
      ReceiverEmpty(c, r, n, g);
    }
  }

  /** At every point of every run, what is on the receiver's disk is the beginning of what was offered. */
  lemma NothingElseOnDisk(c: Config, h: Trace, k: nat, x: Sys, id: int)
    requires Honest(c) && At(c, h, k, x) && id in x.r.disk.written
    ensures id in Offered(c.sEnv) && x.r.disk.written[id] <= Offered(c.sEnv)[id]
  {
    var p := PlanFor(c);
    var gr, gs := RunJoint(p, h, k, x);
    OnDisk(p, x.r, x.rRead, x.accepted, gr, id);
  }

  /** Under the id of the i-th readable file of the payload the receiver has that file's bytes. */
  lemma PayloadDelivered(c: Config, h: Trace, k: nat, x: Sys, i: nat)
    requires Honest(c) && At(c, h, k, x) && i < |Regulars(c.sEnv.payload, |c.sEnv.payload|)|
    ensures var f := Regulars(c.sEnv.payload, |c.sEnv.payload|)[i];
            x.accepted && Waiting(x) ==>
              && f.Regular? && c.sEnv.tape.fileIds(i) in x.r.disk.written
              && x.r.disk.written[c.sEnv.tape.fileIds(i)] == f.data
  {
    FilesDelivered(c, h, k, x);
    OfferIsPayload(c.sEnv, |c.sEnv.payload|);
    assert Carried(c.sEnv, Offer(c.sEnv), i, Regulars(c.sEnv.payload, |c.sEnv.payload|)[i]);
  }

  // --- Every run ends --------------------------------------------------------------------------------------

  // The ids as the sender's loops list them.
  function Order(env: Env): seq<int> {
    env.tape.order(Offer(env).files.Keys)
  }

  /** The turns the sender's loops can still take, at most. */
  ghost function TurnsLeft(c: Plan, x: Sys): int {
    if x.sRead < 8 then Offer(c.sEnv).total + |Order(c.sEnv)| + 1
    else if x.job.Some? then Outstanding(x.s.st.files) + |x.job.value| + 1
    else 0
  }

  /** The frames the sender has sent, with those it can still send, are bounded. */
  ghost predicate SentBound(c: Plan, x: Sys) {
    if x.sRead < 8 then |x.s.sent| <= 6
    else if x.job.Some? then |x.s.sent| + 2 * Outstanding(x.s.st.files) <= 6 + 2 * Offer(c.sEnv).total
    else |x.s.sent| <= 7 + 2 * Offer(c.sEnv).total
  }

  /** n moves so far: reads, turns and the acceptance. */
  ghost predicate Tally(c: Plan, x: Sys, n: nat) {
    && n + TurnsLeft(c, x)
       <= x.rRead + x.sRead + Offer(c.sEnv).total + |Order(c.sEnv)| + 1 + (if x.accepted then 1 else 0)
    && SentBound(c, x)
  }

  lemma SendingTally(c: Plan, x: Sys, b: Peer, n: nat)
    requires HonestFiles(c.sEnv, c.rEnv) && Tally(c, x, n) && x.sRead == 7
    requires b.st.files == Offer(c.sEnv).files && b.env == c.sEnv && |b.sent| == 6
    ensures Tally(c, x.(s := b, job := Some(b.env.tape.order(b.st.files.Keys)), sRead := 8), n + 1)
  {
    OutboundSafety.AnnouncedBooks(c.sEnv, |c.sEnv.payload|);
  }

  lemma ConsentTally(c: Plan, x: Sys, n: nat)
    requires ScriptedMail(c) && HonestChannel(c.sEnv, c.rEnv) && HonestMail(c) && HonestFiles(c.sEnv, c.rEnv)
    requires Enabled(x, ToSender) && Tally(c, x, n)
    requires x.sRead == 7 && SenderPairing(c, x.s, 5) && Answered(c, x.r, 7)
    ensures O.FilesOk(x.s.st.files) && Tally(c, SenderStep(x), n + 1)
  {
    ConsentArrives(c, x.s, x.r);
    var b := O.BeginSending(Sessions.Counted(x.s));
    ConsentStep(x, b);
    SendingTally(c, x, b, n);
  }

  lemma EarlyTally(c: Plan, x: Sys, y: Sys, n: nat, gs: Standing)
    requires Tally(c, x, n) && x.sRead < 7 && SenderInv(c, y.s, y.sRead, y.job, gs)
    requires y.sRead == x.sRead + 1 && y.rRead == x.rRead && y.accepted == x.accepted
    ensures Tally(c, y, n + 1)
  {
    SenderWrote(c, y.s, y.sRead, y.job, gs);
  }

  /** The sender's step reads one message and leaves the receiver alone. */
  lemma SenderStepFrame(x: Sys)
    requires Enabled(x, ToSender) && O.FilesOk(x.s.st.files)
    ensures var y := SenderStep(x); y.sRead == x.sRead + 1 && y.rRead == x.rRead && y.accepted == x.accepted
  {
  }

  lemma GoodbyeTally(c: Plan, x: Sys, y: Sys, n: nat)
    requires Tally(c, x, n) && x.sRead >= 8 && y == x.(s := Sessions.Counted(x.s), sRead := x.sRead + 1)
    ensures Tally(c, y, n + 1)
  {
  }

  lemma EarlySenderTally(c: Plan, x: Sys, n: nat, gr: Standing, gs: Standing)
    requires Planned(c) && Joint(c, x, gr, gs) && Fitting(x) && Enabled(x, ToSender) && Tally(c, x, n) && x.sRead < 7
    ensures O.FilesOk(x.s.st.files) && Tally(c, SenderStep(x), n + 1)
  {
    var h := SenderStepJoint(c, x, gr, gs);
    SenderStepFrame(x);
    EarlyTally(c, x, SenderStep(x), n, h);
  }

  lemma SenderTally(c: Plan, x: Sys, n: nat, gr: Standing, gs: Standing)
    requires Planned(c) && Joint(c, x, gr, gs) && Fitting(x) && Enabled(x, ToSender) && Tally(c, x, n)
    ensures O.FilesOk(x.s.st.files) && Tally(c, SenderStep(x), n + 1)
  {
    NextAnswered(c, x.r, x.rRead, x.accepted, gr, x.sRead);
    if x.sRead < 7 {
      EarlySenderTally(c, x, n, gr, gs);
    } else if x.sRead == 7 {
      ConsentTally(c, x, n);
    } else {
      GoodbyeJoint(c, x, gr, gs);
      GoodbyeTally(c, x, SenderStep(x), n);
    }
  }

  lemma TurnTally(c: Plan, x: Sys, n: nat)
    requires Enabled(x, SenderTurn) && Tally(c, x, n) && x.sRead >= 8
    requires O.FilesOk(x.s.st.files) && x.s.keys.Some? && x.s.io.None?
    ensures Tally(c, TurnStep(x), n + 1)
  {
    if |x.job.value| > 0 {
      TurnShrinks(x.s, x.job.value);
    }
  }

  /** Neither a read by the receiver nor the acceptance touches the sender. */
  lemma OtherTally(c: Plan, x: Sys, m: Move, n: nat)
    requires (m.ToReceiver? || m.UserAccepts?) && Enabled(x, m) && O.FilesOk(x.s.st.files) && Tally(c, x, n)
    ensures Tally(c, After(x, m), n + 1)
  {
  }

  lemma InLoops(c: Plan, s: Peer, n: nat, job: Option<seq<int>>, g: Standing)
    requires SenderInv(c, s, n, job, g) && job.Some?
    ensures n == 8 && s.keys.Some? && s.io.None?
  {
  }

  lemma StepTally(c: Plan, x: Sys, m: Move, y: Sys, n: nat, gr: Standing, gs: Standing)
    requires Planned(c) && Joint(c, x, gr, gs) && Next(x, m) == Some(y) && Tally(c, x, n)
    ensures Tally(c, y, n + 1)
  {
    match m {
      case ToReceiver => OtherTally(c, x, m, n);
      case ToSender => SenderTally(c, x, n, gr, gs);
      case SenderTurn =>
        InLoops(c, x.s, x.sRead, x.job, gs);
        TurnTally(c, x, n);
      case UserAccepts => OtherTally(c, x, m, n);
    }
  }

  lemma InitTally(c: Plan)
    requires Planned(c)
    ensures Tally(c, Init(c.Sides()), 0)
  {
    OpeningPoint(c);
  }

  lemma {:induction false} FollowTally(c: Plan, moves: seq<Move>)
    requires Planned(c) && Reached(c, moves).Some?
    ensures Tally(c, Reached(c, moves).value, |moves|)
    decreases |moves|
  {
    if |moves| == 0 {
      InitTally(c);
    } else {
      var before := moves[..|moves| - 1];
      FollowTally(c, before);
      var gr, gs := FollowJoint(c, before);
      StepTally(c, Reached(c, before).value, moves[|moves| - 1], Reached(c, moves).value, |before|, gr, gs);
    }
  }

  lemma TallyEnds(c: Plan, x: Sys, n: nat, gr: Standing, gs: Standing)
    requires Joint(c, x, gr, gs) && Tally(c, x, n) && Offer(c.sEnv).total >= 0
    ensures n <= 3 * Offer(c.sEnv).total + |Order(c.sEnv)| + 22
  {
    ReceiverWrote(c, x.r, x.rRead, x.accepted, gr);
    SenderWrote(c, x.s, x.sRead, x.job, gs);
  }

  /** Every run ends: no run makes more moves than this, whatever the interleaving and however short the
      reads. With `RunsGoOn`,
      `NotStuckBeforeConsent` and `FilesDelivered`, every run in which the user accepts leads to delivery. */
  lemma RunsEnd(c: Config, h: Trace)
    requires Honest(c) && Leads(Init(c), Next, h)
    ensures |h.moves| <= 3 * Offer(c.sEnv).total + |Order(c.sEnv)| + 22
  {
    var p := PlanFor(c);
    var k := |h.moves|;
    var gr, gs := RunJoint(p, h, k, h.states[k]);
    FollowLeads(Init(c), Next, h, k);
    FollowTally(p, h.moves[..k]);
    OutboundSafety.AnnouncedBooks(c.sEnv, |c.sEnv.payload|);
    TallyEnds(p, h.states[k], k, gr, gs);
  }
}
