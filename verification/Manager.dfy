/** The per-connection loops of `TcpServer` (manager.rs): a request handles events until an error ends it,
    and what the front end hears last. */
module Manager {
  import opened Wrappers
  import opened Messages
  import opened Peers
  import opened Requests
  import I = Inbound
  import IR = InboundRequests
  import InboundSafety
  import O = Outbound
  import OR = OutboundRequests
  import OutboundSafety

  /** The state in the last message broadcast under an id. */
  function LastFor(told: seq<ChannelMessage>, id: string): Option<State> {
    if |told| == 0 then None
    else if told[|told| - 1].id == id then Some(told[|told| - 1].state)
    else LastFor(told[..|told| - 1], id)
  }

  /** The front end knows that the session with this id is over, or never heard of it. */
  predicate Announced(told: seq<ChannelMessage>, id: string) {
    LastFor(told, id).Some? ==> Terminal(LastFor(told, id).value)
  }

  lemma {:induction false} LastOfOwn(told: seq<ChannelMessage>, id: string)
    requires |told| > 0 && told[|told| - 1].id == id
    ensures LastFor(told, id) == Some(told[|told| - 1].state)
  {
  }

  lemma {:induction false} SkipOther(told: seq<ChannelMessage>, m: ChannelMessage, id: string)
    requires m.id != id
    ensures LastFor(told + [m], id) == LastFor(told, id)
  {
    assert (told + [m])[..|told|] == told;
  }

  function Disconnection(id: string): ChannelMessage {
    ChannelMessage(id, Disconnected, None)
  }

  // --- Receiving side ------------------------------------------------------------------------------

  /** The closing broadcast after an inbound loop has ended; an abort ends the loop without one. */
  function InboundEnd(s: Step): Peer {
    match s.r
    case Err(NotAnError) => s.p
    case Err(Panic(_)) => s.p
    case Err(_) =>
      if s.p.st.state.Initial? || s.p.st.state.Finished? then s.p
      else s.p.(told := s.p.told + [Disconnection(s.p.env.id)])
    case Ok => s.p
  }

  /** The rest of a run after its i-th event has been handled with outcome s. */
  lemma {:induction false} InboundNext(p: Peer, events: seq<Event>, i: nat, s: Step)
    requires i < |events| && s == I.Handle(p, events[i])
    ensures InboundSafety.Run(p, events[i..]) == if s.r.Err? then s else InboundSafety.Run(s.p, events[i + 1..])
  {
    assert events[i..][1..] == events[i + 1..];
  }

  /** The loop `run` spawns for an accepted connection. */
  method ServeInbound(req: Request, events: seq<Event>) returns (r: Outcome)
    requires InboundSafety.Inv(req.Value()) && InboundSafety.Grounded(req.env)
    requires InboundSafety.SensibleRun(req.Value(), events)
    modifies req
    ensures var s := InboundSafety.Run(old(req.Value()), events);
            r == s.r && req.Value() == InboundEnd(s)
    ensures r.Err? && !r.error.Panic? ==> Announced(req.told, req.env.id)
    ensures r.Err? && !r.error.Panic? && !r.error.NotAnError?
            ==> LastFor(req.told, req.env.id) == LastHeard(req.state.state)
  {
    ghost var goal := InboundSafety.Run(req.Value(), events);
    InboundSafety.RunSafe(req.Value(), events);
    r := Ok;
    var i := 0;
    assert events[0..] == events;
    while i < |events| && r.Ok?
      invariant 0 <= i <= |events|
      invariant r.Ok? ==> InboundSafety.Run(req.Value(), events[i..]) == goal
      invariant r.Err? ==> Step(req.Value(), r) == goal
    {
      ghost var before := req.Value();
      r := IR.Handle(req, events[i]);
      InboundNext(before, events, i, Step(req.Value(), r));
      i := i + 1;
    }
    InboundAnnounced(goal);
    if r.Err? && !r.error.Panic? {
      InboundLastHeard(goal);
    }
    CloseInbound(req, r);
  }

  /** What `run` does with an accepted connection, from its first message to its end. */
  method Accept(env: Env, io: Option<nat>, names: set<string>, events: seq<Event>) returns (req: Request, r: Outcome)
    requires InboundSafety.Grounded(env) && InboundSafety.SensibleRun(I.Start(env, io, names), events)
    ensures fresh(req)
    ensures var s := InboundSafety.Run(I.Start(env, io, names), events); r == s.r && req.Value() == InboundEnd(s)
    ensures r.Err? && !r.error.Panic? ==> Announced(req.told, env.id)
    ensures r.Err? && !r.error.Panic? && !r.error.NotAnError?
            ==> LastFor(req.told, env.id) == LastHeard(req.state.state)
  {
    InboundSafety.StartInv(env, io, names);
    req := IR.New(env, io, names);
    r := ServeInbound(req, events);
  }

  method CloseInbound(req: Request, r: Outcome)
    modifies req
    ensures req.Value() == InboundEnd(Step(old(req.Value()), r))
  {
    if r.Err? && !r.error.NotAnError? && !r.error.Panic? {
      if req.state.state != Initial && req.state.state != Finished {
        req.told := req.told + [ChannelMessage(req.env.id, Disconnected, None)];
      }
    }
  }

  /** When an inbound loop ends on an error, the last broadcast for its id says the session is over. */
  lemma InboundAnnounced(s: Step)
    requires s.r.Err? && !s.r.error.Panic? ==> InboundSafety.Closing(s)
    ensures s.r.Err? && !s.r.error.Panic? ==> Announced(InboundEnd(s).told, s.p.env.id)
  {
    if s.r.Err? && !s.r.error.Panic? && |InboundEnd(s).told| > 0 {
      var told := InboundEnd(s).told;
      assert told[|told| - 1].id == s.p.env.id;
      LastOfOwn(told, s.p.env.id);
    }
  }

  /** What the front end last hears of a session that ended on an error of its own or of its connection. */
  function LastHeard(state: State): Option<State> {
    match state
    case Finished => Some(Finished)
    case Initial => None
    case _ => Some(Disconnected)
  }

  /** A finished session is last heard of as Finished, one still in its initial state not at all, any other as
      disconnected; one that ended on purpose as what it said itself. */
  lemma {:induction false} InboundLastHeard(s: Step)
    requires s.r.Err? && !s.r.error.Panic? && InboundSafety.Closing(s)
    ensures var told, id := s.p.told, s.p.env.id;
            LastFor(InboundEnd(s).told, id)
            == if s.r.error.NotAnError? then Some(told[|told| - 1].state) else LastHeard(s.p.st.state)
  {
    var told, id := InboundEnd(s).told, s.p.env.id;
    if |told| > 0 {
      assert told[|told| - 1].id == id;
      LastOfOwn(told, id);
    }
  }

  // --- Sending side --------------------------------------------------------------------------------

  /** The closing broadcast after an outbound loop has ended, sent under the address. */
  function OutboundEnd(s: Step, addr: string): Peer {
    match s.r
    case Err(NotAnError) => s.p
    case Err(Panic(_)) => s.p
    case Err(_) =>
      if s.p.st.state.Initial? || s.p.st.state.Finished? || s.p.st.state.Cancelled? then s.p
      else s.p.(told := s.p.told + [Disconnection(addr)])
    case Ok => s.p
  }

  /** The loop of `connect`, once the connection request and the client init are out. */
  method ServeOutbound(req: Request, events: seq<Event>, addr: string) returns (r: Outcome)
    requires OutboundSafety.Inv(req.Value()) && OutboundSafety.DistinctIds(req.env)
    requires OutboundSafety.SensibleRun(req.Value(), events)
    modifies req
    ensures var s := OutboundSafety.Run(old(req.Value()), events);
            r == s.r && req.Value() == OutboundEnd(s, addr)
    ensures r.Err? && !r.error.Panic? && addr == req.env.id ==> Announced(req.told, req.env.id)
    ensures r.Err? && !r.error.Panic? && (req.state.state.Finished? || req.state.state.Cancelled?)
            ==> LastFor(req.told, req.env.id) == Some(req.state.state)
    ensures r.Err? && !r.error.Panic? && !r.error.NotAnError? && addr == req.env.id && !req.state.state.Cancelled?
            ==> LastFor(req.told, req.env.id) == LastHeard(req.state.state)
  {
    ghost var goal := OutboundSafety.Run(req.Value(), events);
    OutboundSafety.RunSafe(req.Value(), events);
    r := Ok;
    var i := 0;
    assert events[0..] == events;
    while i < |events| && r.Ok?
      invariant 0 <= i <= |events|
      invariant r.Ok? ==> OutboundSafety.Inv(req.Value())
                          && OutboundSafety.SensibleRun(req.Value(), events[i..])
                          && OutboundSafety.Run(req.Value(), events[i..]) == goal
      invariant r.Err? ==> Step(req.Value(), r) == goal
    {
      assert events[i..][1..] == events[i + 1..];
      OutboundSafety.HandleSafe(req.Value(), events[i]);
      r := OR.Handle(req, events[i]);
      i := i + 1;
    }
    if r.Err? && !r.error.Panic? {
      OutboundAnnounced(goal, addr);
      OutboundLastHeard(goal, addr);
    }
    CloseOutbound(req, r, addr);
  }

  /** The front end acts only on a session it has heard of, from the moment the connection is open. */
  ghost predicate SensibleConnection(env: Env, io: Option<nat>, events: seq<Event>) {
    && OutboundSafety.DistinctIds(env)
    && var s := OutboundSafety.Opened(env, io);
       s.r.Ok? ==> OutboundSafety.Inv(s.p) && s.p.env == env && OutboundSafety.SensibleRun(s.p, events)
  }

  /** `connect`: send the connection request and the client init, then serve the connection. An error
      before that ends the session before anything was announced. */
  method Connect(env: Env, io: Option<nat>, events: seq<Event>, addr: string) returns (req: Request, r: Outcome)
    requires |env.tape.salt| == 16 && SensibleConnection(env, io, events)
    ensures fresh(req)
    ensures var s := OutboundSafety.Opened(env, io);
            if s.r.Err? then Step(req.Value(), r) == s && req.told == []
            else var t := OutboundSafety.Run(s.p, events); r == t.r && req.Value() == OutboundEnd(t, addr)
    ensures r.Err? && !r.error.Panic? && addr == env.id ==> Announced(req.told, env.id)
    ensures r.Err? && !r.error.Panic? && (req.state.state.Finished? || req.state.state.Cancelled?)
            ==> LastFor(req.told, env.id) == Some(req.state.state)
  {
    req := OR.New(env, io);
    r := OR.SendConnectionRequest(req);
    if r.Err? {
      return;
    }
    r := OR.SendUkey2ClientInit(req);
    if r.Err? {
      return;
    }
    r := ServeOutbound(req, events, addr);
  }

  method CloseOutbound(req: Request, r: Outcome, addr: string)
    modifies req
    ensures req.Value() == OutboundEnd(Step(old(req.Value()), r), addr)
  {
    if r.Err? && !r.error.NotAnError? && !r.error.Panic? {
      var state := req.state.state;
      if state != Initial && state != Finished && state != Cancelled {
        req.told := req.told + [ChannelMessage(addr, Disconnected, None)];
      }
    }
  }

  /** The same for an outbound session whose closing broadcast goes out under its id; and what it has said itself
      once it has finished or was cancelled stands for every address. */
  lemma {:induction false} OutboundLastHeard(s: Step, addr: string)
    requires s.r.Err? && !s.r.error.Panic? && OutboundSafety.Closing(s)
    ensures var last := LastFor(OutboundEnd(s, addr).told, s.p.env.id);
            && (Terminal(s.p.st.state) && (s.r.error.NotAnError? || s.p.st.state.Finished? || s.p.st.state.Cancelled?)
                ==> last == Some(s.p.st.state))
            && (s.p.st.state.Initial? ==> last == LastFor(s.p.told, s.p.env.id))
            && (!s.r.error.NotAnError? && !s.p.st.state.Initial? && !s.p.st.state.Cancelled? && addr == s.p.env.id
                ==> last == LastHeard(s.p.st.state))
  {
    var told, id := OutboundEnd(s, addr).told, s.p.env.id;
    if |told| > 0 && told[|told| - 1].id == id {
      LastOfOwn(told, id);
    }
    if |s.p.told| > 0 {
      assert s.p.told[|s.p.told| - 1].id == id;
      LastOfOwn(s.p.told, id);
    }
  }

  /** When an outbound loop ends on an error, the last broadcast for its id says the session is over
      exactly when the closing broadcast goes out under that id, or is not needed. */
  lemma OutboundAnnounced(s: Step, addr: string)
    requires s.r.Err? && !s.r.error.Panic? && OutboundSafety.Closing(s) && Rank(s.p.st.state) >= 2
    ensures Announced(OutboundEnd(s, addr).told, s.p.env.id)
       <==> addr == s.p.env.id || Terminal(s.p.st.state) || s.p.told == []
  {
    var told, id := s.p.told, s.p.env.id;
    if |told| > 0 {
      assert told[|told| - 1].id == id;
      LastOfOwn(told, id);
    }
    if addr == id {
      if OutboundEnd(s, addr).told != told {
        LastOfOwn(told + [Disconnection(addr)], id);
      }
    } else {
      SkipOther(told, Disconnection(addr), id);
    }
  }
}
