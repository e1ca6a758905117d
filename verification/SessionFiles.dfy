/** The receiver's directory after a session: what the files hold by path, when offered files may be stored
    under one path. */
module SessionFiles {
  import opened Wrappers
  import opened Messages
  import opened Libraries
  import opened SecureChannel
  import opened Peers
  import opened Histories
  import opened Sessions
  import opened SessionHandshake
  import opened Delivery
  import opened SessionTransfer
  import opened SessionRuns
  import opened SessionTheorems
  import I = Inbound
  import O = Outbound
  import OutboundSafety
  import InboundSafety
  import Destination

  // --- Directories ---------------------------------------------------------------------------------

  /** Files that share a path are the same file. */
  ghost predicate Coherent(files: Files, paths: map<int, string>) {
    forall i, j | i in files && j in files && i in paths && j in paths && paths[i] == paths[j] :: files[i] == files[j]
  }

  /** What was written for each id is the beginning of what its path holds, and that of what was offered. */
  ghost predicate Filed(files: Files, paths: map<int, string>, d: Disk) {
    forall id | id in d.written ::
      && id in files && id in paths && paths[id] in d.contents
      && d.written[id] <= d.contents[paths[id]] <= files[id]
  }

  /** Every offered file is whole under its path. */
  ghost predicate Stored(files: Files, paths: map<int, string>, d: Disk) {
    forall id | id in files :: id in paths && paths[id] in d.contents && d.contents[paths[id]] == files[id]
  }

  lemma OverwrittenPrefix(file: Bytes, data: Bytes, at: nat, body: Bytes)
    requires at <= |data| && data <= file && body <= file[at..]
    ensures var grown := Overwritten(data, at, body);
            data <= grown <= file && data[..at] + body <= grown
  {
    var grown := Overwritten(data, at, body);
    forall k | 0 <= k < |grown|
      ensures grown[k] == file[k]
    {
      if at <= k < at + |body| {
        assert grown[k] == body[k - at] && body[k - at] == file[at..][k - at];
      }
    }
    assert data <= grown && data[..at] + body <= grown;
  }

  lemma GrownFiled(files: Files, paths: map<int, string>, d: Disk, id: int, body: Bytes)
    requires Filed(files, paths, d) && Coherent(files, paths) && id in d.written
    requires body <= files[id][|d.written[id]|..]
    ensures Filed(files, paths, d.Grown(id, paths[id], d.written[id] + body, |d.written[id]|, body))
  {
    var path, before := paths[id], d.contents[paths[id]];
    var e := d.Grown(id, path, d.written[id] + body, |d.written[id]|, body);
    OverwrittenPrefix(files[id], before, |d.written[id]|, body);
    assert before[..|d.written[id]|] == d.written[id];
    forall j | j in e.written
      ensures && j in files && j in paths && paths[j] in e.contents
              && e.written[j] <= e.contents[paths[j]] <= files[j]
    {
      if j != id {
        assert j in d.written;
        if paths[j] == path {
          assert files[j] == files[id];
        }
      }
    }
  }

  lemma FiledStored(files: Files, paths: map<int, string>, d: Disk)
    requires Filed(files, paths, d) && d.written == files
    ensures Stored(files, paths, d)
  {
    forall id | id in files
      ensures id in paths && paths[id] in d.contents && d.contents[paths[id]] == files[id]
    {
      assert id in d.written;
    }
  }

  /** What is stored whole under every path was coherent. */
  lemma StoredCoherent(files: Files, paths: map<int, string>, d: Disk)
    requires Stored(files, paths, d)
    ensures Coherent(files, paths)
  {
  }

  // --- The paths of an offer -----------------------------------------------------------------------

  /** Where the receiver decides to store each offered file. */
  function Paths(c: Config): map<int, string> {
    var t := I.Taken(map[], c.names, Offer(c.sEnv).list, |Offer(c.sEnv).list|).files;
    map id | id in t :: t[id].path
  }

  /** The receiver's table still says so. */
  ghost predicate Placed(c: Config, r: Peer) {
    forall id | id in r.st.files :: id in Paths(c) && r.st.files[id].path == Paths(c)[id]
  }

  // --- Acceptance ------------------------------------------------------------------------------------

  /** All files created so far are empty and under their paths. */
  ghost predicate AllEmpty(c: Config, d: Disk) {
    forall id | id in d.written ::
      id in Paths(c) && d.written[id] == [] && Paths(c)[id] in d.contents && d.contents[Paths(c)[id]] == []
  }

  lemma {:induction false} CreatedEmpty(c: Config, p: Peer, ids: seq<int>)
    requires Placed(c, p) && AllEmpty(c, p.disk) && p.io.None?
    ensures var s := I.CreateAll(p, ids); Placed(c, s.p) && AllEmpty(c, s.p.disk)
    decreases |ids|
  {
    if |ids| > 0 && ids[0] in p.st.files {
      CreatedEmpty(c, I.Create(p, ids[0]), ids[1..]);
    }
  }

  lemma {:induction false} AcceptedDirectory(c: Plan, r: Peer)
    requires HonestFiles(c.sEnv, c.rEnv) && ReceiverAsking(c, r)
    ensures var s := I.CreateAll(r, r.env.tape.order(r.st.files.Keys));
            Placed(c.Sides(), s.p) && Filed(Offered(c.sEnv), Paths(c.Sides()), s.p.disk)
  {
    var s := I.CreateAll(r, r.env.tape.order(r.st.files.Keys));
    CreatedEmpty(c.Sides(), r, r.env.tape.order(r.st.files.Keys));
    AcceptedAtZero(c, r);
  }

  ghost predicate InPlace(c: Plan, r: Peer) {
    Placed(c.Sides(), r) && Filed(Offered(c.sEnv), Paths(c.Sides()), r.disk)
  }

  /** The answer changes neither the table nor the directory. */
  lemma AnswerInPlace(c: Plan, p: Peer, s: Step)
    requires InPlace(c, p) && s.p.disk == p.disk && s.p.st.files == p.st.files
    ensures InPlace(c, s.p)
  {
  }

  lemma AcceptedInPlace(c: Plan, r: Peer)
    requires HonestFiles(c.sEnv, c.rEnv) && ReceiverAsking(c, r)
    ensures InPlace(c, I.Handle(r, Front(r.env.id, AcceptTransfer)).p)
  {
    AcceptedDirectory(c, r);
    var p := I.CreateAll(r, r.env.tape.order(r.st.files.Keys)).p;
    AnswerInPlace(c, p, SendEncrypted(p, ResponseFrame(Accept)));
  }

  // --- Chunks ------------------------------------------------------------------------------------------

  lemma GrownInPlace(c: Plan, d: Disk, g: Standing, id: int, body: Bytes)
    requires Filed(Offered(c.sEnv), Paths(c.Sides()), d) && Coherent(Offered(c.sEnv), Paths(c.Sides()))
    requires id in Offered(c.sEnv) && id in g.pos && g.pos[id] <= |Offered(c.sEnv)[id]|
    requires id in d.written && d.written[id] == Offered(c.sEnv)[id][..g.pos[id]]
    requires body <= Offered(c.sEnv)[id][g.pos[id]..]
    ensures id in Paths(c.Sides())
    ensures Filed(Offered(c.sEnv), Paths(c.Sides()),
                  d.Grown(id, Paths(c.Sides())[id], d.written[id] + body, g.pos[id], body))
  {
    GrownFiled(Offered(c.sEnv), Paths(c.Sides()), d, id, body);
  }

  /** Where a chunk goes. */
  lemma WriteGrows(files: Files, r: Peer, g: Standing, id: int, body: Bytes)
    requires ReceiverAt(files, r, g) && id in r.st.files && r.io.None?
    ensures id in files && id in r.disk.written && r.disk.written[id] == files[id][..g.pos[id]]
    ensures var q := I.WriteChunk(r, id, body).p;
            && q.st.files.Keys == r.st.files.Keys
            && (forall j | j in r.st.files :: q.st.files[j].path == r.st.files[j].path)
            && q.disk == r.disk.Grown(id, r.st.files[id].path, r.disk.written[id] + body, g.pos[id], body)
  {
  }

  lemma WriteInPlace(c: Plan, r: Peer, g: Standing, id: int, body: Bytes)
    requires InPlace(c, r) && Coherent(Offered(c.sEnv), Paths(c.Sides())) && ReceiverAt(Offered(c.sEnv), r, g)
    requires id in r.st.files && body <= Offered(c.sEnv)[id][g.pos[id]..] && r.io.None?
    ensures InPlace(c, I.WriteChunk(r, id, body).p)
  {
    WriteGrows(Offered(c.sEnv), r, g, id, body);
    GrownInPlace(c, r.disk, g, id, body);
  }

  lemma CloseInPlace(c: Plan, r: Peer, id: int)
    requires InPlace(c, r)
    ensures InPlace(c, I.CloseFile(r, id).p)
  {
  }

  lemma FrameInPlace(c: Plan, r: Peer, k: nat, frame: OfflineFrame, g: Standing)
    requires InPlace(c, r) && Coherent(Offered(c.sEnv), Paths(c.Sides()))
    requires ReceiverTransferring(c, r, k, g) && Apply(Offered(c.sEnv), frame, g).Some? && frame.v1.Some?
    ensures InPlace(c, I.OnV1(r, frame.v1.value).p)
  {
    if frame != GOODBYE {
      PieceOfFrame(Offered(c.sEnv), frame, g);
      var header, chunk := frame.v1.value.transfer.value.header.value, frame.v1.value.transfer.value.chunk.value;
      PieceHandled(Offered(c.sEnv), r, g, frame.v1.value, header, chunk);
      if |chunk.body| > 0 {
        WriteInPlace(c, r, g, header.id, chunk.body);
      } else {
        CloseInPlace(c, r, header.id);
      }
    }
  }

  lemma CountedInPlace(c: Plan, r: Peer, k: nat, g: Standing)
    requires InPlace(c, r) && ReceiverTransferring(c, r, k, g)
    ensures InPlace(c, Counted(r)) && ReceiverTransferring(c, Counted(r), k + 1, g)
  {
  }

  lemma SecureOpened(r: Peer, wire: Bytes, frame: V1Frame)
    requires ReceiveSecure(r, wire) == Incoming(Counted(r), Ok, frame)
    ensures I.OnSecure(r, wire) == I.OnV1(Counted(r), frame)
  {
  }

  /** The next message after acceptance. */
  lemma ReadInPlace(c: Plan, s: Peer, r: Peer, n: nat, gr: Standing, gs: Standing)
    requires InPlace(c, r) && Coherent(Offered(c.sEnv), Paths(c.Sides()))
    requires Opens(c, s, r, n) && ReceiverTransferring(c, r, n - 4, gr)
    requires Play(Offered(c.sEnv), s.sent[n - 4..], gr) == Some(gs)
    ensures InPlace(c, I.OnSecure(r, s.out[n]).p)
  {
    PlayNext(Offered(c.sEnv), s.sent, n - 4, gr);
    CountedInPlace(c, r, n - 4, gr);
    FrameInPlace(c, Counted(r), n - 3, s.sent[n - 4], gr);
    SecureOpened(r, s.out[n], s.sent[n - 4].v1.value);
  }

  // --- Runs --------------------------------------------------------------------------------------------

  lemma LateInPlace(c: Plan, x: Sys, gr: Standing, gs: Standing)
    requires InPlace(c, x.r) && Coherent(Offered(c.sEnv), Paths(c.Sides()))
    requires Opens(c, x.s, x.r, x.rRead) && x.sRead >= 8 && 10 <= x.rRead
    requires ReceiverTransferring(c, x.r, x.rRead - 4, gr) && Linked(c, x, gr, gs)
    ensures InPlace(c, I.OnSecure(x.r, x.s.out[x.rRead]).p)
  {
    ReadInPlace(c, x.s, x.r, x.rRead, gr, gs);
  }

  lemma StillTransferring(c: Plan, x: Sys, gr: Standing, gs: Standing)
    requires Joint(c, x, gr, gs) && x.accepted
    ensures 10 <= x.rRead && ReceiverTransferring(c, x.r, x.rRead - 4, gr) && Linked(c, x, gr, gs)
  {
  }

  lemma ReceiverStepInPlace(c: Plan, x: Sys, gr: Standing, gs: Standing)
    requires Planned(c) && Joint(c, x, gr, gs) && Fitting(x) && Enabled(x, ToReceiver) && x.accepted
    requires InPlace(c, x.r) && Coherent(Offered(c.sEnv), Paths(c.Sides()))
    ensures InPlace(c, ReceiverStep(x).r)
  {
    SenderReady(c, x, gr, gs);
    StillTransferring(c, x, gr, gs);
    LateInPlace(c, x, gr, gs);
    ReceiverSecured(c, x, gr);
  }

  lemma AcceptStepInPlace(c: Plan, x: Sys, gr: Standing, gs: Standing)
    requires Planned(c) && Joint(c, x, gr, gs) && Enabled(x, UserAccepts)
    ensures InPlace(c, AcceptStep(x).r)
  {
    AskingNow(c, x.r, x.rRead, gr);
    AcceptedInPlace(c, x.r);
  }

  lemma SenderAlone(x: Sys, m: Move)
    requires (m.ToSender? || m.SenderTurn?) && Enabled(x, m) && O.FilesOk(x.s.st.files)
    ensures After(x, m).r == x.r && After(x, m).accepted == x.accepted
  {
  }

  lemma StepInPlace(c: Plan, x: Sys, m: Move, y: Sys, gr: Standing, gs: Standing)
    requires Planned(c) && Joint(c, x, gr, gs) && Next(x, m) == Some(y) && Coherent(Offered(c.sEnv), Paths(c.Sides()))
    requires x.accepted ==> InPlace(c, x.r)
    ensures y.accepted ==> InPlace(c, y.r)
  {
    match m {
      case ToReceiver =>
        if x.accepted {
          ReceiverStepInPlace(c, x, gr, gs);
        }
      case UserAccepts => AcceptStepInPlace(c, x, gr, gs);
      case _ => SenderAlone(x, m);
    }
  }

  lemma {:induction false} FollowInPlace(c: Plan, moves: seq<Move>)
    requires Planned(c) && Reached(c, moves).Some? && Coherent(Offered(c.sEnv), Paths(c.Sides()))
    ensures var x := Reached(c, moves).value; x.accepted ==> InPlace(c, x.r)
    decreases |moves|
  {
    if |moves| > 0 {
      var before := moves[..|moves| - 1];
      FollowInPlace(c, before);
      var gr, gs := FollowJoint(c, before);
      StepInPlace(c, Reached(c, before).value, moves[|moves| - 1], Reached(c, moves).value, gr, gs);
    }
  }

  /** When the receiver has every byte of every id, each offered file is whole under its path exactly when files
      that share a path are the same. */
  lemma StoredExactly(c: Config, h: Trace, k: nat, x: Sys)
    requires Honest(c) && At(c, h, k, x) && x.r.disk.written == Offered(c.sEnv)
    ensures Stored(Offered(c.sEnv), Paths(c), x.r.disk) <==> Coherent(Offered(c.sEnv), Paths(c))
  {
    if Stored(Offered(c.sEnv), Paths(c), x.r.disk) {
      StoredCoherent(Offered(c.sEnv), Paths(c), x.r.disk);
    } else if x.accepted && Coherent(Offered(c.sEnv), Paths(c)) {
      var p := PlanFor(c);
      FollowLeads(Init(c), Next, h, k);
      FollowInPlace(p, h.moves[..k]);
      FiledStored(Offered(c.sEnv), Paths(c), x.r.disk);
    } else if !x.accepted {
      ConsentFirst(c, h, k, x);
    }
  }

  // --- By file of the payload --------------------------------------------------------------------------

  /** The readable files the user chose. */
  function Chosen(c: Config): seq<SourceFile> {
    Regulars(c.sEnv.payload, |c.sEnv.payload|)
  }

  function PathOf(c: Config, f: SourceFile): string {
    match f
    case Regular(_, name, _) => Destination.Path(c.names, name)
    case _ => ""
  }

  /** Files that the receiver would store under one path have the same bytes. */
  ghost predicate Compatible(c: Config) {
    forall i, j | 0 <= i < |Chosen(c)| && 0 <= j < |Chosen(c)| && PathOf(c, Chosen(c)[i]) == PathOf(c, Chosen(c)[j]) ::
      Chosen(c)[i].Regular? && Chosen(c)[j].Regular? && Chosen(c)[i].data == Chosen(c)[j].data
  }

  /** The file is whole under its path. */
  predicate Holds(c: Config, d: Disk, f: SourceFile) {
    f.Regular? && PathOf(c, f) in d.contents && d.contents[PathOf(c, f)] == f.data
  }

  lemma {:induction false} TakenPaths(names: set<string>, list: seq<FileMetadata>, k: nat, i: nat)
    requires i < k <= |list| && forall j | 0 <= j < |list| && j != i :: list[j].payloadId != list[i].payloadId
    ensures var t := I.Taken(map[], names, list, k).files;
            list[i].payloadId in t && t[list[i].payloadId].path == Destination.Path(names, list[i].name)
  {
    if i < k - 1 {
      TakenPaths(names, list, k - 1, i);
    }
  }

  /** The i-th readable file is offered under its own id and goes to its own path. */
  lemma OfferedAt(c: Config, i: nat)
    requires HonestFiles(c.sEnv, c.rEnv) && i < |Chosen(c)|
    ensures var id, f := c.sEnv.tape.fileIds(i), Chosen(c)[i];
            && f.Regular? && id in Offered(c.sEnv) && Offered(c.sEnv)[id] == f.data
            && id in Paths(c) && Paths(c)[id] == PathOf(c, f)
  {
    var a, fs := Offer(c.sEnv), Chosen(c);
    OfferIsPayload(c.sEnv, |c.sEnv.payload|);
    assert Carried(c.sEnv, a, i, fs[i]);
    forall j | 0 <= j < |a.list| && j != i
      ensures a.list[j].payloadId != a.list[i].payloadId
    {
      assert Carried(c.sEnv, a, j, fs[j]);
    }
    TakenPaths(c.names, a.list, |a.list|, i);
  }

  lemma OfferedIs(c: Config, id: int) returns (i: nat)
    requires HonestFiles(c.sEnv, c.rEnv) && id in Offered(c.sEnv)
    ensures i < |Chosen(c)| && id == c.sEnv.tape.fileIds(i)
  {
    OutboundSafety.AnnouncedBooks(c.sEnv, |c.sEnv.payload|);
    OfferIsPayload(c.sEnv, |c.sEnv.payload|);
    i :| i < |Offer(c.sEnv).list| && id == c.sEnv.tape.fileIds(i);
  }

  lemma CoherentCompatible(c: Config)
    requires HonestFiles(c.sEnv, c.rEnv)
    ensures Coherent(Offered(c.sEnv), Paths(c)) <==> Compatible(c)
  {
    forall i: nat | i < |Chosen(c)|
      ensures var id, f := c.sEnv.tape.fileIds(i), Chosen(c)[i];
              && f.Regular? && id in Offered(c.sEnv) && Offered(c.sEnv)[id] == f.data
              && id in Paths(c) && Paths(c)[id] == PathOf(c, f)
    {
      OfferedAt(c, i);
    }
    if Compatible(c) {
      forall a, b | a in Offered(c.sEnv) && b in Offered(c.sEnv) && a in Paths(c) && b in Paths(c)
                    && Paths(c)[a] == Paths(c)[b]
        ensures Offered(c.sEnv)[a] == Offered(c.sEnv)[b]
      {
        var i := OfferedIs(c, a);
        var j := OfferedIs(c, b);
        assert PathOf(c, Chosen(c)[i]) == PathOf(c, Chosen(c)[j]);
      }
    }
  }

  lemma StoredHolds(c: Config, d: Disk)
    requires HonestFiles(c.sEnv, c.rEnv)
    ensures Stored(Offered(c.sEnv), Paths(c), d) <==> forall i | 0 <= i < |Chosen(c)| :: Holds(c, d, Chosen(c)[i])
  {
    forall i: nat | i < |Chosen(c)|
      ensures var id, f := c.sEnv.tape.fileIds(i), Chosen(c)[i];
              && f.Regular? && id in Offered(c.sEnv) && Offered(c.sEnv)[id] == f.data
              && id in Paths(c) && Paths(c)[id] == PathOf(c, f)
    {
      OfferedAt(c, i);
    }
    if forall i | 0 <= i < |Chosen(c)| :: Holds(c, d, Chosen(c)[i]) {
      forall id | id in Offered(c.sEnv)
        ensures id in Paths(c) && Paths(c)[id] in d.contents && d.contents[Paths(c)[id]] == Offered(c.sEnv)[id]
      {
        var i := OfferedIs(c, id);
        assert Holds(c, d, Chosen(c)[i]);
      }
    }
  }

  /** Delivery by path. When the user has accepted and nothing more can happen, or the receiver has finished,
      every readable file the user chose is whole in the receiver's directory under the path chosen for it if
      and only if no two of them that differ were given the same path. */
  lemma DirectoryDelivered(c: Config, h: Trace, k: nat, x: Sys)
    requires Honest(c) && At(c, h, k, x) && ((x.accepted && Waiting(x)) || x.r.st.state.Finished?)
    ensures (forall i | 0 <= i < |Chosen(c)| :: Holds(c, x.r.disk, Chosen(c)[i])) <==> Compatible(c)
  {
    if x.r.st.state.Finished? {
      FinishedIsWhole(c, h, k, x);
    } else {
      FilesDelivered(c, h, k, x);
    }
    StoredExactly(c, h, k, x);
    CoherentCompatible(c);
    StoredHolds(c, x.r.disk);
  }

  /** Paths are chosen before any file is created, so two files with one name get one path: if they differ, they
      are never both delivered. */
  lemma SameNameLost(c: Config, i: nat, j: nat)
    requires i < |Chosen(c)| && j < |Chosen(c)| && Chosen(c)[i].Regular? && Chosen(c)[j].Regular?
    requires Chosen(c)[i].name == Chosen(c)[j].name && Chosen(c)[i].data != Chosen(c)[j].data
    ensures !Compatible(c)
  {
    assert PathOf(c, Chosen(c)[i]) == PathOf(c, Chosen(c)[j]);
  }
}
