/** Honest sessions whose public keys do not survive their encoding: what every run of them comes to. */
module SessionKeyLoss {
  import opened Wrappers
  import opened Messages
  import opened Libraries
  import opened SecureChannel
  import opened Peers
  import opened Histories
  import opened Sessions
  import opened SessionHandshake
  import opened SessionTheorems
  import SessionRuns
  import I = Inbound
  import O = Outbound
  import OutboundSafety

  const BAD_POINT: Outcome := Err(Refused(BadPoint))

  /** The sender, with the receiver's key on its way or refused. */
  ghost predicate SenderEarly(c: Plan, x: Sys) {
    && x.job.None? && x.s.st.files == map[]
    && if x.sRead == 0 then x.sEnd.Ok? && SenderOpened(c, x.s)
       else
         && x.sRead == 1
         && if Sendable(c.Lib().publicKey(c.rEnv.tape.privateKey)) then x.sEnd.Ok? && SenderFinished(c, x.s)
            else x.sEnd == BAD_POINT && x.s.out == [c.script.request, c.script.clientInit]
  }

  /** The receiver, with the sender's key on its way or refused. */
  ghost predicate ReceiverEarly(c: Plan, x: Sys) {
    && !x.accepted
    && if x.rRead <= 2 then x.rEnd.Ok? && ReceiverClear(c, x.r, x.rRead)
       else x.rRead == 3 && x.rEnd == BAD_POINT && ReceiverClear(c, x.r, 2)
  }

  ghost predicate Early(c: Plan, x: Sys) {
    SenderEarly(c, x) && ReceiverEarly(c, x) && x.sRead <= |x.r.out| && x.rRead <= |x.s.out|
  }

  lemma InitEarly(c: Plan)
    requires Drafted(c)
    ensures Early(c, Init(c.Sides()))
  {
    OpeningPoint(c);
  }

  /** The receiver's n-th message: it is read, or the sender's point in it is refused. */
  lemma ReceiverReads(c: Plan, r: Peer, n: nat, wire: Bytes)
    requires Drafted(c) && n <= 2 && ReceiverClear(c, r, n) && Fits(wire)
    requires wire == if n == 0 then c.script.request else if n == 1 then c.script.clientInit else c.script.finish
    requires n == 2 ==> !Sendable(c.Lib().publicKey(c.sEnv.tape.privateKey))
    ensures var t := I.Handle(r, Frame(wire));
            if n == 2 then t == Step(r, BAD_POINT) else t.r.Ok? && ReceiverClear(c, t.p, n + 1)
  {
    SessionRuns.HelloHandled(r, wire);
    if n == 0 {
      RequestRead(c, r);
    } else if n == 1 {
      ClientInitRead(c, r);
    } else {
      FinishExactly(c, r);
    }
  }

  /** What the receiver can read is the next message of the script. */
  lemma ReceiverNext(c: Plan, x: Sys)
    requires !SendableKeys(c.sEnv, c.rEnv) && Early(c, x) && Enabled(x, ToReceiver)
    ensures x.rRead <= 2 && ReceiverClear(c, x.r, x.rRead)
    ensures x.s.out[x.rRead]
         == if x.rRead == 0 then c.script.request else if x.rRead == 1 then c.script.clientInit else c.script.finish
    ensures x.rRead == 2 ==> !Sendable(c.Lib().publicKey(c.sEnv.tape.privateKey))
  {
  }

  lemma ReceiverStepEarly(c: Plan, x: Sys)
    requires Drafted(c) && !SendableKeys(c.sEnv, c.rEnv)
    requires Early(c, x) && Enabled(x, ToReceiver) && Fitting(x)
    ensures Early(c, ReceiverStep(x))
  {
    ReceiverNext(c, x);
    ReceiverReads(c, x.r, x.rRead, x.s.out[x.rRead]);
  }

  lemma SenderReads(c: Plan, s: Peer)
    requires Drafted(c) && SenderOpened(c, s) && Fits(c.script.serverInit)
    ensures O.Consented(s, c.script.serverInit).None?
    ensures var t := O.Handle(s, Frame(c.script.serverInit));
            && t.p.st.files == map[]
            && if Sendable(c.Lib().publicKey(c.rEnv.tape.privateKey)) then t.r.Ok? && SenderFinished(c, t.p)
               else t.r == BAD_POINT && t.p.out == s.out
  {
    ServerInitExactly(c, s);
  }

  lemma SenderNext(c: Plan, x: Sys)
    requires Early(c, x) && Enabled(x, ToSender)
    ensures x.sRead == 0 && SenderOpened(c, x.s) && x.r.out[0] == c.script.serverInit
  {
  }

  lemma SenderStepEarly(c: Plan, x: Sys)
    requires Drafted(c) && Early(c, x) && Enabled(x, ToSender) && Fitting(x)
    ensures O.FilesOk(x.s.st.files) && Early(c, SenderStep(x))
  {
    SenderNext(c, x);
    SenderReads(c, x.s);
    var t := O.Handle(x.s, Frame(c.script.serverInit));
    assert SenderStep(x) == x.(s := t.p, sEnd := t.r, sRead := 1);
  }

  lemma OnlyReads(c: Plan, x: Sys, m: Move)
    requires Early(c, x) && Enabled(x, m)
    ensures m.ToReceiver? || m.ToSender?
  {
  }

  lemma StepEarly(c: Plan, x: Sys, m: Move, y: Sys)
    requires Drafted(c) && !SendableKeys(c.sEnv, c.rEnv) && Early(c, x) && Next(x, m) == Some(y)
    ensures Early(c, y) && y.rRead + y.sRead == x.rRead + x.sRead + 1
  {
    OnlyReads(c, x, m);
    if m.ToReceiver? {
      ReceiverStepEarly(c, x);
    } else {
      SenderStepEarly(c, x);
      SenderStepFrame(x);
    }
  }

  lemma {:induction false} FollowEarly(c: Plan, moves: seq<Move>)
    requires Drafted(c) && !SendableKeys(c.sEnv, c.rEnv) && Reached(c, moves).Some?
    ensures Early(c, Reached(c, moves).value)
    decreases |moves|
  {
    if |moves| == 0 {
      InitEarly(c);
    } else {
      var before := moves[..|moves| - 1];
      FollowEarly(c, before);
      StepEarly(c, Reached(c, before).value, moves[|moves| - 1], Reached(c, moves).value);
    }
  }

  predicate Failed(x: Sys) {
    (x.sEnd.Err? && !x.sEnd.error.NotAnError?) || (x.rEnd.Err? && !x.rEnd.error.NotAnError?)
  }

  lemma EarlyRests(c: Plan, x: Sys)
    requires !SendableKeys(c.sEnv, c.rEnv) && Early(c, x)
    ensures Failed(x) ==> x.sEnd == BAD_POINT || x.rEnd == BAD_POINT
    ensures !Enabled(x, ToReceiver) && !Enabled(x, ToSender) ==>
              if Sendable(c.Lib().publicKey(c.rEnv.tape.privateKey)) then x.rEnd == BAD_POINT
              else x.sEnd == BAD_POINT
  {
  }

  /** When a public key of an honest session has a coordinate below 2^247, no run of it gets past the key
      exchange. Nobody is asked, nothing is written, and when nothing more can happen one side has refused
      the other's point: the sender the receiver's, or, if that is large enough, the receiver the sender's. */
  lemma SmallKeysFail(c: Config, h: Trace, k: nat, x: Sys)
    requires Decent(c) && !SendableKeys(c.sEnv, c.rEnv) && At(c, h, k, x)
    ensures !x.accepted && x.r.told == [] && x.r.disk.written == map[]
    ensures Failed(x) ==> x.sEnd == BAD_POINT || x.rEnd == BAD_POINT
    ensures Waiting(x) ==>
              if Sendable(c.sEnv.lib.publicKey(c.rEnv.tape.privateKey)) then x.rEnd == BAD_POINT
              else x.sEnd == BAD_POINT
  {
    var p := PlanFor(c);
    FollowLeads(Init(c), Next, h, k);
    FollowEarly(p, h.moves[..k]);
    EarlyRests(p, x);
  }

  // The messages of the key exchange are within the frame limit.
  ghost predicate FirstFit(c: Config) {
    var l := c.sEnv.lib;
    && Fits(RequestWire(c.sEnv)) && Fits(l.encUkey(O.InitMessage(c.sEnv)))
    && Fits(l.encUkey(I.ServerInitMessage(c.rEnv))) && Fits(l.encUkey(O.FinishMessage(c.sEnv)))
    && Fits(l.encOffline(O.ACCEPT_CONNECTION))
  }

  lemma EarlyFits(c: Plan, x: Sys)
    requires Scripted(c) && Early(c, x) && FirstFit(c.Sides())
    ensures Fitting(x)
  {
  }

  lemma CanGoOn(c: Plan, x: Sys, m: Move)
    requires Scripted(c) && Early(c, x) && FirstFit(c.Sides()) && Enabled(x, m)
    ensures Next(x, m).Some?
  {
    EarlyFits(c, x);
  }

  /** The read that one of the sides can make, if any can. */
  function Read(x: Sys): (m: Option<Move>)
    ensures m.Some? ==> Enabled(x, m.value)
  {
    if Enabled(x, ToReceiver) then Some(ToReceiver) else if Enabled(x, ToSender) then Some(ToSender) else None
  }

  function ReadsLeft(x: Sys): nat {
    if x.rRead + x.sRead < 5 then 5 - x.rRead - x.sRead else 0
  }

  lemma OneReadLess(c: Plan, x: Sys, y: Sys)
    requires Early(c, x) && Early(c, y) && y.rRead + y.sRead == x.rRead + x.sRead + 1
    ensures ReadsLeft(y) < ReadsLeft(x)
  {
  }

  lemma ReadMoves(c: Plan, x: Sys, m: Move)
    requires Drafted(c) && !SendableKeys(c.sEnv, c.rEnv) && FirstFit(c.Sides()) && Early(c, x) && Enabled(x, m)
    ensures Next(x, m).Some? && Early(c, Next(x, m).value) && ReadsLeft(Next(x, m).value) < ReadsLeft(x)
  {
    CanGoOn(c, x, m);
    StepEarly(c, x, m, Next(x, m).value);
    OneReadLess(c, x, Next(x, m).value);
  }

  lemma EarlyProgresses(c: Plan)
    requires Drafted(c) && !SendableKeys(c.sEnv, c.rEnv) && FirstFit(c.Sides())
    ensures Progresses(Next, x => Early(c, x), Read, ReadsLeft)
  {
    forall x: Sys | Early(c, x) && Read(x).Some?
      ensures var y := Next(x, Read(x).value);
              y.Some? && Early(c, y.value) && ReadsLeft(y.value) < ReadsLeft(x)
    {
      ReadMoves(c, x, Read(x).value);
    }
  }

  lemma SomeRunFails(c: Config) returns (h: Trace, x: Sys)
    requires Decent(c) && !SendableKeys(c.sEnv, c.rEnv) && FirstFit(c)
    ensures At(c, h, |h.moves|, x) && Failed(x)
  {
    var p := PlanFor(c);
    InitEarly(p);
    EarlyProgresses(p);
    h := Complete(Init(c), Next, x => Early(p, x), Read, ReadsLeft, History([], [Init(c)]));
    x := h.states[|h.moves|];
    EarlyRests(p, x);
  }

  /** Every run of this configuration goes without failure. */
  ghost predicate NeverFails(c: Config) {
    forall h: Trace, k: nat, x | At(c, h, k, x) :: !Failed(x)
  }

  /** Between honest peers, no run fails if and only if both public keys have both coordinates at 2^247 or
      above. */
  lemma NeverFailsExactly(c: Config)
    requires Decent(c) && FirstFit(c)
    ensures NeverFails(c) <==> SendableKeys(c.sEnv, c.rEnv)
  {
    if SendableKeys(c.sEnv, c.rEnv) {
      forall h: Trace, k: nat, x | At(c, h, k, x)
        ensures !Failed(x)
      {
        NoRunFails(c, h, k, x);
      }
    } else {
      var h, x := SomeRunFails(c);
      assert At(c, h, |h.moves|, x);
    }
  }
}
