/** File transfer between the two sides: the chunk frames of the sender's loops, and what they do to the
    receiver's files, file by file. */
module Delivery {
  import opened Wrappers
  import opened Messages
  import opened Libraries
  import opened Peers
  import opened Ledgers
  import opened Sessions
  import I = Inbound
  import O = Outbound
  import OutboundSafety

  type Files = map<int, Bytes>

  function Data(f: FileInfo): Bytes {
    match f.handle
    case None => []
    case Some(h) => h.data
  }

  /** The offered files, by payload id. */
  function Offered(env: Env): Files {
    map id | id in Offer(env).files :: Data(Offer(env).files[id])
  }

  // How far a transfer has got: bytes delivered for each file, and the files whose last chunk was seen.
  datatype Standing = Standing(pos: map<int, nat>, closed: set<int>)

  /** What one frame does to the standing; None if it is not the next piece of any file. */
  function Apply(files: Files, frame: OfflineFrame, g: Standing): Option<Standing> {
    match frame.v1
    case Some(Disconnection) => Some(g)
    case Some(Payload(Some(PayloadTransfer(Some(header), Some(chunk))))) =>
      var id := header.id;
      if header.ptype != FilePayload || id !in files || id !in g.pos || id in g.closed then None
      else if header.totalSize != |files[id]| || chunk.offset != g.pos[id] then None
      else if chunk.flags == 0 && |chunk.body| > 0 && chunk.body <= files[id][Min(g.pos[id], |files[id]|)..] then
        Some(g.(pos := g.pos[id := g.pos[id] + |chunk.body|]))
      else if chunk.flags == 1 && chunk.body == [] && g.pos[id] == |files[id]| > 0 then
        Some(g.(closed := g.closed + {id}))
      else None
    case _ => None
  }

  function Min(a: nat, b: nat): (m: nat)
    ensures m <= a && m <= b && (m == a || m == b)
  {
    if a <= b then a else b
  }

  function Play(files: Files, frames: seq<OfflineFrame>, g: Standing): Option<Standing> {
    if |frames| == 0 then Some(g)
    else
      match Apply(files, frames[0], g)
      case None => None
      case Some(h) => Play(files, frames[1..], h)
  }

  lemma {:induction false} PlayAppend(files: Files, frames: seq<OfflineFrame>, more: seq<OfflineFrame>, g: Standing)
    requires Play(files, frames, g).Some?
    ensures Play(files, frames + more, g) == Play(files, more, Play(files, frames, g).value)
    decreases |frames|
  {
    if |frames| == 0 {
      assert frames + more == more;
    } else {
      assert (frames + more)[1..] == frames[1..] + more;
      PlayAppend(files, frames[1..], more, Apply(files, frames[0], g).value);
    }
  }

  // --- Where each side stands ------------------------------------------------------------------------

  ghost predicate Within(files: Files, g: Standing) {
    && g.pos.Keys == files.Keys && g.closed <= files.Keys
    && (forall id | id in files :: g.pos[id] <= |files[id]|)
    && (forall id | id in g.closed :: g.pos[id] == |files[id]| > 0)
  }

  /** The receiver's files and disk hold exactly the first bytes of each offered file. */
  ghost predicate Delivered(files: Files, table: map<int, FileInfo>, written: map<int, Bytes>, g: Standing) {
    && Within(files, g)
    && table.Keys == files.Keys - g.closed && written.Keys == files.Keys
    && (forall id | id in files :: written[id] == files[id][..g.pos[id]])
    && (forall id | id in table ::
          var f := table[id];
          && f.transferred == g.pos[id] && f.total == |files[id]|
          && f.handle == Some(OpenFile(files[id][..g.pos[id]], g.pos[id])))
  }

  ghost predicate Balanced(meta: Option<TransferMetadata>, table: map<int, FileInfo>) {
    meta.Some? && meta.value.ackBytes + Outstanding(table) == meta.value.totalBytes
  }

  ghost predicate ReceiverAt(files: Files, r: Peer, g: Standing) {
    Delivered(files, r.st.files, r.disk.written, g) && Balanced(r.st.meta, r.st.files)
  }

  /** The sender's table, with the ids still to send: every unfinished file is among them. */
  ghost predicate SenderAt(files: Files, s: Peer, job: seq<int>, g: Standing) {
    && Within(files, g)
    && s.st.files.Keys <= files.Keys
    && (forall id | id in files && |files[id]| > 0 && g.pos[id] == |files[id]| :: id in g.closed)
    && (forall id | id in s.st.files ::
          var f := s.st.files[id];
          f.transferred == g.pos[id] && f.total == |files[id]| && f.handle == Some(OpenFile(files[id], g.pos[id])))
    && (forall id | id in files && id !in s.st.files :: g.pos[id] == |files[id]|)
    && (forall id | id in files && g.pos[id] < |files[id]| :: id in job)
  }

  function Zero(files: Files): Standing {
    Standing(map id | id in files :: 0, {})
  }

  // --- The sender's turns ------------------------------------------------------------------------------

  function Advanced(g: Standing, id: int, n: nat, done: bool): Standing
    requires id in g.pos
  {
    Standing(g.pos[id := g.pos[id] + n], if done then g.closed + {id} else g.closed)
  }

  lemma {:induction false} PlayOne(files: Files, frame: OfflineFrame, g: Standing)
    ensures Play(files, [frame], g) == Apply(files, frame, g)
  {
    var frames := [frame];
    assert frames[1..] == [];
  }

  /** What one turn sends for a file it has read from. */
  function ChunkFrames(id: int, f: FileInfo, body: Bytes): seq<OfflineFrame> {
    if f.transferred + |body| == f.total then [O.ChunkFrame(id, f, body), O.EndFrame(id, f)]
    else [O.ChunkFrame(id, f, body)]
  }

  ghost predicate NextPiece(files: Files, g: Standing, id: int, f: FileInfo, body: Bytes) {
    && id in files && id in g.pos && id !in g.closed
    && f.transferred == g.pos[id] && f.total == |files[id]|
    && 0 < |body| && g.pos[id] + |body| <= |files[id]|
    && body == files[id][g.pos[id]..g.pos[id] + |body|]
  }

  /** The frames of one chunk play as one step of the file. */
  lemma {:induction false} ChunkPlays(files: Files, g: Standing, id: int, f: FileInfo, body: Bytes)
    requires NextPiece(files, g, id, f, body)
    ensures Play(files, ChunkFrames(id, f, body), g)
         == Some(Advanced(g, id, |body|, f.transferred + |body| == f.total))
  {
    var chunk, end := O.ChunkFrame(id, f, body), O.EndFrame(id, f);
    var h := Advanced(g, id, |body|, false);
    assert body <= files[id][g.pos[id]..];
    assert Apply(files, chunk, g) == Some(h);
    PlayOne(files, chunk, g);
    if f.transferred + |body| == f.total {
      PlayOne(files, end, h);
      PlayAppend(files, [chunk], [end], g);
      assert [chunk] + [end] == [chunk, end];
    }
  }

  /** q is p after sending these frames: the session itself is the same. */
  ghost predicate Sends(p: Peer, q: Peer, frames: seq<OfflineFrame>) {
    && q.env == p.env && q.io.None? && q.keys == p.keys && q.st.pin == p.st.pin
    && q.st.state == p.st.state && q.st.clientSeq == p.st.clientSeq
    && Wired(q, 4) && p.out <= q.out && q.sent == p.sent + frames
  }

  lemma SendsOne(p: Peer, frame: OfflineFrame)
    requires Wired(p, 4) && p.io.None?
    ensures var s := EncryptAndSend(p, frame);
            s.r.Ok? && Sends(p, s.p, [frame]) && s.p.st.files == p.st.files
  {
    SendWired(p, 4, frame);
  }

  lemma SendsThen(p: Peer, q: Peer, r: Peer, frames: seq<OfflineFrame>, more: seq<OfflineFrame>)
    requires Sends(p, q, frames) && Sends(q, r, more)
    ensures Sends(p, r, frames + more)
  {
    assert p.sent + frames + more == p.sent + (frames + more);
  }

  lemma ProgressSends(p: Peer, q: Peer, frames: seq<OfflineFrame>, files: map<int, FileInfo>, n: nat)
    requires Sends(p, q, frames)
    ensures Sends(p, Progress(q, files, n), frames) && Progress(q, files, n).st.files == files
  {
  }

  lemma ReadSends(p: Peer, id: int, f: FileInfo, body: Bytes)
    requires Wired(p, 4) && p.io.None? && f.handle.Some?
    ensures var s := O.SendRead(p, id, f, body);
            && s.r.Ok? && Sends(p, s.p, ChunkFrames(id, f, body))
            && s.p.st.files == p.st.files[id := O.Advance(f, |body|)]
  {
    var chunk, end := O.ChunkFrame(id, f, body), O.EndFrame(id, f);
    SendsOne(p, chunk);
    var s, files := EncryptAndSend(p, chunk), p.st.files[id := O.Advance(f, |body|)];
    ProgressSends(p, s.p, [chunk], files, |body|);
    var q := Progress(s.p, files, |body|);
    SendsOne(q, end);
    SendsThen(p, q, EncryptAndSend(q, end).p, [chunk], [end]);
    assert [chunk] + [end] == [chunk, end];
  }

  lemma SenderFilesOk(files: Files, s: Peer, job: seq<int>, g: Standing)
    requires SenderAt(files, s, job, g)
    ensures O.FilesOk(s.st.files)
  {
  }

  /** What a read from an unfinished file returns is its next piece. */
  lemma ReadIsNext(files: Files, s: Peer, job: seq<int>, g: Standing, id: int)
    requires SenderAt(files, s, job, g) && id in s.st.files && s.st.files[id].transferred != s.st.files[id].total
    ensures O.FileOk(s.st.files[id])
    ensures NextPiece(files, g, id, s.st.files[id], O.Slice(s.env.tape, id, s.st.files[id]))
  {
  }

  /** After a chunk the sender stands one piece further. */
  lemma SenderAdvances(files: Files, s: Peer, q: Peer, job: seq<int>, g: Standing, body: Bytes)
    requires SenderAt(files, s, job, g) && |job| > 0 && job[0] in s.st.files
    requires NextPiece(files, g, job[0], s.st.files[job[0]], body)
    requires q.st.files == s.st.files[job[0] := O.Advance(s.st.files[job[0]], |body|)]
    ensures var done := s.st.files[job[0]].transferred + |body| == s.st.files[job[0]].total;
            SenderAt(files, q, if done then job[1..] else job, Advanced(g, job[0], |body|, done))
  {
  }

  lemma SenderDrops(files: Files, s: Peer, q: Peer, job: seq<int>, g: Standing)
    requires SenderAt(files, s, job, g) && |job| > 0
    requires job[0] in s.st.files ==> s.st.files[job[0]].transferred == s.st.files[job[0]].total
    requires q.st.files == s.st.files - {job[0]}
    ensures SenderAt(files, q, job[1..], g)
  {
  }

  /** One turn of the sender's loops sends the next pieces of its current file, or nothing. */
  lemma TurnPlays(files: Files, s: Peer, job: seq<int>, g: Standing)
      returns (frames: seq<OfflineFrame>, h: Standing)
    requires SenderAt(files, s, job, g) && |job| > 0 && Wired(s, 4) && s.io.None?
    ensures O.FilesOk(s.st.files)
    ensures var t := O.Turn(s, job);
            && t.r.Ok? && Sends(s, t.p, frames) && Play(files, frames, g) == Some(h)
            && SenderAt(files, t.p, t.job, h)
  {
    SenderFilesOk(files, s, job, g);
    var t, id := O.Turn(s, job), job[0];
    if id in s.st.files && s.st.files[id].transferred != s.st.files[id].total {
      var f := s.st.files[id];
      ReadIsNext(files, s, job, g, id);
      var body := O.Slice(s.env.tape, id, f);
      frames, h := ChunkFrames(id, f, body), Advanced(g, id, |body|, f.transferred + |body| == f.total);
      ReadSends(s, id, f, body);
      ChunkPlays(files, g, id, f, body);
      SenderAdvances(files, s, t.p, job, g, body);
    } else {
      frames, h := [], g;
      SenderDrops(files, s, t.p, job, g);
    }
  }

  /** Each turn either takes a file off the list or sends at least one byte, in at most two messages. */
  lemma TurnShrinks(s: Peer, job: seq<int>)
    requires O.FilesOk(s.st.files) && |job| > 0 && s.keys.Some? && s.io.None?
    ensures var t := O.Turn(s, job);
            && Outstanding(t.p.st.files) + |t.job| < Outstanding(s.st.files) + |job|
            && |t.p.sent| + 2 * Outstanding(t.p.st.files) <= |s.sent| + 2 * Outstanding(s.st.files)
  {
    var id := job[0];
    if id in s.st.files {
      var f := s.st.files[id];
      if f.transferred == f.total {
        TakeOut(s.st.files, id);
      } else if f.handle.Some? {
        OutboundSafety.AdvanceOutstanding(s.st.files, id, |O.Slice(s.env.tape, id, f)|);
      }
    }
  }

  // --- The receiver's chunks -----------------------------------------------------------------------------

  /** q is p but for the progress of its files. */
  ghost predicate FilesOnly(p: Peer, q: Peer) {
    q == p.(st := p.st.(files := q.st.files, meta := q.st.meta, lastNotified := q.st.lastNotified),
            told := q.told, disk := q.disk)
  }

  ghost predicate Piece(files: Files, g: Standing, header: PayloadHeader, chunk: PayloadChunk) {
    && header.ptype.FilePayload? && header.id in files && header.id in g.pos && header.id !in g.closed
    && chunk.offset == g.pos[header.id] <= |files[header.id]|
    && (if |chunk.body| > 0 then chunk.body <= files[header.id][g.pos[header.id]..]
        else chunk.flags == 1 && g.pos[header.id] == |files[header.id]| > 0)
  }

  function AfterPiece(g: Standing, header: PayloadHeader, chunk: PayloadChunk): Standing
    requires header.id in g.pos
  {
    if |chunk.body| > 0 then Advanced(g, header.id, |chunk.body|, false) else g.(closed := g.closed + {header.id})
  }

  /** What a frame that plays is. */
  lemma PieceOfFrame(files: Files, frame: OfflineFrame, g: Standing)
    requires Within(files, g) && Apply(files, frame, g).Some? && frame != OfflineFrame(Some(Disconnection))
    ensures frame.v1.Some? && frame.v1.value.Payload?
    ensures var t := frame.v1.value.transfer;
            && t.Some? && t.value.header.Some? && t.value.chunk.Some?
            && Piece(files, g, t.value.header.value, t.value.chunk.value)
            && Apply(files, frame, g) == Some(AfterPiece(g, t.value.header.value, t.value.chunk.value))
  {
  }

  /** Writing the next piece of a file. */
  lemma PieceWritten(
    files: Files, table: map<int, FileInfo>, written: map<int, Bytes>, g: Standing, id: int, body: Bytes)
    requires Delivered(files, table, written, g) && id in table && body <= files[id][g.pos[id]..]
    requires |body| > 0
    ensures var f := I.Written(table[id], body);
            Delivered(files, table[id := f], written[id := f.handle.value.data], Advanced(g, id, |body|, false))
  {
    assert files[id][..g.pos[id]] + body == files[id][..g.pos[id] + |body|];
  }

  lemma PieceCounted(meta: Option<TransferMetadata>, table: map<int, FileInfo>, id: int, body: Bytes)
    requires Balanced(meta, table) && id in table && table[id].handle.Some?
    requires table[id].transferred + |body| <= table[id].total
    ensures Balanced(WithAck(meta, Acked(meta) + |body|), table[id := I.Written(table[id], body)])
  {
    TakeOut(table, id);
    PutIn(table, id, I.Written(table[id], body));
  }

  lemma WriteDelivers(files: Files, r: Peer, g: Standing, id: int, body: Bytes)
    requires ReceiverAt(files, r, g) && id in r.st.files && |body| > 0 && r.io.None?
    requires body <= files[id][g.pos[id]..]
    ensures var t := I.WriteChunk(r, id, body);
            t.r.Ok? && FilesOnly(r, t.p) && ReceiverAt(files, t.p, Advanced(g, id, |body|, false))
  {
    PieceWritten(files, r.st.files, r.disk.written, g, id, body);
    PieceCounted(r.st.meta, r.st.files, id, body);
  }

  lemma FileClosed(files: Files, r: Peer, g: Standing, id: int)
    requires ReceiverAt(files, r, g) && id in r.st.files && g.pos[id] == |files[id]| > 0
    ensures var q, h := r.(st := r.st.(files := r.st.files - {id})), g.(closed := g.closed + {id});
            ReceiverAt(files, q, h) && (q.st.files == map[] <==> h.closed == files.Keys)
  {
    TakeOut(r.st.files, id);
    var table := r.st.files - {id};
    assert table.Keys == files.Keys - (g.closed + {id});
    assert table == map[] <==> table.Keys == {};
  }

  /** The next piece of a file arrives: it is written or closes its file, and never refused. */
  lemma PieceArrives(files: Files, r: Peer, g: Standing, header: PayloadHeader, chunk: PayloadChunk)
    requires ReceiverAt(files, r, g) && Piece(files, g, header, chunk) && r.io.None?
    ensures I.OnFileChunk(r, header, chunk)
         == if |chunk.body| > 0 then I.WriteChunk(r, header.id, chunk.body) else I.CloseFile(r, header.id)
  {
  }
}
