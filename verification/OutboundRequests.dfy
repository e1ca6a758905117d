/** The methods of `OutboundRequest` (hdl/outbound.rs) over mutable state, each specified by the function
    of the same name in module Outbound. */
module OutboundRequests {
  import opened Wrappers
  import opened Messages
  import opened Libraries
  import opened SecureChannel
  import opened Peers
  import opened Requests
  import O = Outbound
  import EndpointInfo
  import PinCode
  import PointCodec

  method New(env: Env, io: Option<nat>) returns (req: Request)
    ensures fresh(req) && req.env == env && req.Value() == O.Start(env, io)
  {
    req := new Request(env, io, {}, Some(TransferMetadata(None, O.Paths(env.payload), 0, 0, None)));
  }

  method SendConnectionRequest(req: Request) returns (r: Outcome)
    requires |req.env.tape.salt| == 16
    modifies req
    ensures Step(req.Value(), r) == O.SendConnectionRequest(old(req.Value()))
  {
    var info := EndpointInfo.Serialize(req.env.device, req.env.tape.salt);
    r := req.SendFrame(req.env.lib.encOffline(OfflineFrame(Some(ConnectionRequest(Some(Some(info)))))));
  }

  method SendUkey2ClientInit(req: Request) returns (r: Outcome)
    modifies req
    ensures Step(req.Value(), r) == O.SendClientInit(old(req.Value()))
  {
    var lib, tape := req.env.lib, req.env.tape;
    var key := PointCodec.Published(lib.publicKey(tape.privateKey));
    var finish := lib.encUkey(ClientFinishMsg(Some(ClientFinished(Some(PublicKeyMsg(Some(key)))))));
    var init := lib.encUkey(ClientInitMsg(Some(ClientInit(
      1, tape.random, [CipherCommitment(P256Sha512, lib.sha512(finish))], NEXT_PROTOCOL))));
    :- req.SendFrame(init);
    req.UpdateState(
      req.state.(state := SentUkeyClientInit,
                 hs := req.state.hs.(privateKey := Some(tape.privateKey),
                                     clientInit := Some(init),
                                     clientFinish := Some(finish))),
      false);
    return Ok;
  }

  method FinalizeKeyExchange(req: Request, key: PublicKeyMsg) returns (r: Outcome)
    modifies req
    ensures Step(req.Value(), r) == O.Finalize(old(req.Value()), key)
  {
    if key.ec.None? {
      return Err(Refused(MissingField));
    }
    var point := PointCodec.Recover(key.ec.value);
    if point.None? {
      return Err(Refused(BadPoint));
    }
    if !req.env.lib.onCurve(point.value) {
      return Err(Panic(PointOffCurve));
    }
    var hs := req.state.hs;
    if hs.privateKey.None? || hs.clientInit.None? || hs.serverInit.None? {
      return Err(Panic(NoHandshakeData));
    }
    var s := Schedule(req.env.lib, req.env.lib.dh(hs.privateKey.value, point.value),
                      hs.clientInit.value, hs.serverInit.value);
    req.keys := Some(SessionKeys(s.clientKey, s.serverKey, s.clientMac, s.serverMac));
    var pin := PinCode.ToFourDigitString(s.auth);
    req.UpdateState(req.state.(pin := Some(pin), meta := O.WithPin(req.state.meta, pin)), true);
    return Ok;
  }

  method ProcessUkey2ServerInit(req: Request, m: Ukey2Message) returns (r: Outcome)
    modifies req
    ensures Step(req.Value(), r) == O.ProcessServerInit(old(req.Value()), m)
  {
    if !m.ServerInitMsg? {
      r := req.SendUkey2Alert(BadMessageType, UnexpectedType);
      return;
    }
    if m.serverInit.None? {
      return Err(Refused(Undecodable));
    }
    var serverInit := m.serverInit.value;
    if serverInit.version != 1 {
      r := req.SendUkey2Alert(BadVersionAlert, BadVersion);
      return;
    }
    if |serverInit.random| != 32 {
      r := req.SendUkey2Alert(BadRandomAlert, BadRandom);
      return;
    }
    if serverInit.cipher != P256Sha512 {
      r := req.SendUkey2Alert(BadCipherAlert, BadCipher);
      return;
    }
    if serverInit.publicKey.None? {
      return Err(Refused(Undecodable));
    }
    :- FinalizeKeyExchange(req, serverInit.publicKey.value);
    r := SendFinish(req);
  }

  method SendFinish(req: Request) returns (r: Outcome)
    modifies req
    ensures Step(req.Value(), r) == O.SendFinish(old(req.Value()))
  {
    if req.state.hs.clientFinish.None? {
      return Err(Panic(NoHandshakeData));
    }
    :- req.SendFrame(req.state.hs.clientFinish.value);
    r := req.SendFrame(req.env.lib.encOffline(O.ACCEPT_CONNECTION));
  }

  method ProcessConnectionResponse(req: Request, frame: OfflineFrame) returns (r: Outcome)
    modifies req
    ensures Step(req.Value(), r) == O.ProcessConnectionResponse(old(req.Value()), frame)
  {
    if frame.v1.None? {
      return Err(Refused(MissingField));
    }
    if !frame.v1.value.ConnectionResponse? {
      return Err(Refused(UnexpectedType));
    }
    if frame.v1.value.accepted.None? {
      return Err(Refused(MissingField));
    }
    if !frame.v1.value.accepted.value {
      return Err(Refused(ConnectionDenied));
    }
    r := req.SendEncryptedFrame(PairedKeyEncryptionFrame());
  }

  /** Collect the readable files of the payload, tell the receiver about them and remember them. */
  method ProcessPairedKeyResult(req: Request, v1: ShareV1) returns (r: Outcome)
    modifies req
    ensures Step(req.Value(), r) == O.ProcessPairedKeyResult(old(req.Value()), v1)
  {
    if !v1.hasPairedKeyResult {
      return Err(Refused(MissingField));
    }
    var fileMetadata: seq<FileMetadata> := [];
    var transferredFiles: map<int, FileInfo> := map[];
    var totalToSend := 0;
    var files := req.env.payload;
    for i := 0 to |files|
      invariant Announcement(fileMetadata, transferredFiles, totalToSend) == O.Announced(req.env, i)
      invariant req.Value() == old(req.Value())
    {
      if !files[i].Regular? {
        continue;
      }
      var id := req.env.tape.fileIds(|fileMetadata|);
      var size := |files[i].data|;
      transferredFiles := transferredFiles[
        id := FileInfo(files[i].name, 0, size, Some(OpenFile(files[i].data, 0)))];
      fileMetadata := fileMetadata + [FileMetadata(id, files[i].name, size)];
      totalToSend := totalToSend + size;
    }
    req.UpdateState(
      req.state.(meta := O.WithTotal(req.state.meta, totalToSend), files := transferredFiles), false);
    r := req.SendEncryptedFrame(IntroductionFrame(fileMetadata));
  }

  /** One chunk of the current file, its accounting, and the last chunk when the file is done. */
  method SendChunk(req: Request, current: int) returns (r: Outcome)
    requires current in req.state.files && O.FileOk(req.state.files[current])
    requires req.state.files[current].handle.Some?
    modifies req
    ensures Step(req.Value(), r) == O.SendChunk(old(req.Value()), current)
  {
    var info := req.state.files[current];
    :- req.SpendIo();
    var body := Read(req.env.tape, current, info);
    r := SendRead(req, current, info, body);
  }

  /** `read` on the open file: the bytes from the cursor on, as many as it returns. */
  method Read(tape: Tape, current: int, info: FileInfo) returns (body: Bytes)
    requires O.FileOk(info) && info.handle.Some?
    ensures body == O.Slice(tape, current, info)
  {
    var handle := info.handle.value;
    var bytesRead := O.ReadSize(tape, current, info.transferred, |handle.data| - handle.cursor);
    body := handle.data[handle.cursor..handle.cursor + bytesRead];
  }

  method SendRead(req: Request, current: int, info: FileInfo, body: Bytes) returns (r: Outcome)
    requires info.handle.Some?
    modifies req
    ensures Step(req.Value(), r) == O.SendRead(old(req.Value()), current, info, body)
  {
    var chunk := PayloadFrame(current, FilePayload, info.total, info.transferred, 0, body);
    :- req.EncryptAndSend(chunk);
    req.ReportProgress(req.state.files[current := O.Advance(info, |body|)], |body|);
    if info.transferred + |body| == info.total {
      :- req.EncryptAndSend(PayloadFrame(current, FilePayload, info.total, info.total, 1, []));
    }
    return Ok;
  }

  /** One pass of the inner loop; `more` says whether the file needs another. */
  method SendPass(req: Request, current: int, ghost rest: seq<int>) returns (r: Outcome, more: bool)
    requires O.FilesOk(req.state.files)
    modifies req
    ensures var t := O.Turn(old(req.Value()), [current] + rest);
            Step(req.Value(), r) == Step(t.p, t.r) && (r.Ok? ==> t.job == if more then [current] + rest else rest)
  {
    assert ([current] + rest)[1..] == rest;
    if current !in req.state.files {
      return Ok, false;
    }
    var info := req.state.files[current];
    if info.transferred == info.total {
      req.UpdateState(req.state.(files := req.state.files - {current}), false);
      return Ok, false;
    }
    if info.handle.None? {
      return Ok, false;
    }
    O.ChunkKeepsFiles(req.Value(), current);
    r := SendChunk(req, current);
    more := req.state.files[current].transferred != info.total;
  }

  /** The inner loop: chunks of one file until it is finished. */
  method SendFile(req: Request, current: int, ghost rest: seq<int>) returns (r: Outcome)
    requires O.FilesOk(req.state.files)
    modifies req
    ensures r.Ok? ==> O.FilesOk(req.state.files)
                      && O.SendLoop(req.Value(), rest) == O.SendLoop(old(req.Value()), [current] + rest)
    ensures r.Err? ==> Step(req.Value(), r) == O.SendLoop(old(req.Value()), [current] + rest)
  {
    ghost var job := [current] + rest;
    ghost var goal := O.SendLoop(req.Value(), job);
    assert job[1..] == rest;
    var more := true;
    while more
      invariant O.FilesOk(req.state.files)
      invariant O.SendLoop(req.Value(), if more then job else rest) == goal
      decreases more, O.BytesLeft(req.state.files, job)
    {
      O.TurnKeepsFiles(req.Value(), job);
      r, more := SendPass(req, current, rest);
      if r.Err? {
        return;
      }
    }
    return Ok;
  }

  /** The user's answer. On acceptance every file goes out, in whatever order the table lists them. */
  method ProcessConsent(req: Request, v1: ShareV1) returns (r: Outcome)
    requires O.FilesOk(req.state.files)
    modifies req
    ensures Step(req.Value(), r) == O.ProcessConsent(old(req.Value()), v1)
  {
    if v1.stype != ResponseType || v1.response.None? {
      return Err(Refused(MissingField));
    }
    if v1.response.value != Accept {
      r := req.EndSession(Disconnected);
      return;
    }
    req.UpdateState(req.state.(state := SendingFiles), true);
    var ids := req.env.tape.order(req.state.files.Keys);
    ghost var goal := O.SendLoop(req.Value(), ids);
    var next := 0;
    assert ids[0..] == ids;
    while next < |ids|
      invariant 0 <= next <= |ids|
      invariant O.FilesOk(req.state.files) && O.SendLoop(req.Value(), ids[next..]) == goal
    {
      assert ids[next..] == [ids[next]] + ids[next + 1..];
      :- SendFile(req, ids[next], ids[next + 1..]);
      next := next + 1;
    }
    req.UpdateState(req.state.(state := Finished), true);
    r := req.Disconnection();
  }

  method ProcessTransferSetup(req: Request, frame: ShareFrame) returns (r: Outcome)
    requires O.FilesOk(req.state.files)
    modifies req
    ensures Step(req.Value(), r) == O.OnSetup(old(req.Value()), frame)
  {
    if frame.v1.None? {
      return Err(Refused(MissingField));
    }
    var v1 := frame.v1.value;
    if v1.stype == CancelType {
      r := req.EndSession(Cancelled);
      return;
    }
    match req.state.state {
      case SentPairedKeyEncryption =>
        if !v1.hasPairedKeyEncryption {
          return Err(Refused(MissingField));
        }
        :- req.SendEncryptedFrame(PairedKeyResultFrame());
        req.UpdateState(req.state.(state := SentPairedKeyResult), false);
      case SentPairedKeyResult =>
        :- ProcessPairedKeyResult(req, v1);
        req.UpdateState(req.state.(state := SentIntroduction), true);
      case SentIntroduction =>
        :- ProcessConsent(req, v1);
      case _ =>
    }
    return Ok;
  }

  method DecryptAndProcessSecureMessage(req: Request, wire: Bytes) returns (r: Outcome)
    requires O.FilesOk(req.state.files)
    modifies req
    ensures Step(req.Value(), r) == O.OnSecure(old(req.Value()), wire)
  {
    var v1 :- req.Decrypt(wire);
    match v1 {
      case Payload(transfer) =>
        if transfer.None? || transfer.value.header.None? || transfer.value.chunk.None? {
          return Err(Refused(MissingField));
        }
        if transfer.value.header.value.ptype == BytesPayload {
          var complete :- req.GatherChunk(transfer.value.header.value, transfer.value.chunk.value);
          if complete.Some? {
            var inner := req.env.lib.decShare(complete.value);
            if inner.None? {
              return Err(Refused(Undecodable));
            }
            :- ProcessTransferSetup(req, inner.value);
          }
        }
      case KeepAlive(_) =>
        :- req.EncryptAndSend(OfflineFrame(Some(KeepAlive(true))));
      case _ =>
    }
    return Ok;
  }

  method HandleFrame(req: Request, wire: Bytes) returns (r: Outcome)
    requires O.FilesOk(req.state.files)
    modifies req
    ensures Step(req.Value(), r) == O.OnFrame(old(req.Value()), wire)
  {
    if |wire| > SANE_FRAME_LENGTH {
      return Err(Refused(FrameTooBig));
    }
    match req.state.state {
      case SentUkeyClientInit =>
        var m := req.env.lib.decUkey(wire);
        if m.None? {
          return Err(Refused(Undecodable));
        }
        req.UpdateState(req.state.(hs := req.state.hs.(serverInit := Some(wire))), false);
        :- ProcessUkey2ServerInit(req, m.value);
        req.UpdateState(req.state.(state := SentUkeyClientFinish), false);
      case SentUkeyClientFinish =>
        var frame := req.env.lib.decOffline(wire);
        if frame.None? {
          return Err(Refused(Undecodable));
        }
        :- ProcessConnectionResponse(req, frame.value);
        req.UpdateState(
          req.state.(state := SentPairedKeyEncryption, hs := req.state.hs.(serverInit := Some(wire))), false);
      case _ =>
        :- DecryptAndProcessSecureMessage(req, wire);
    }
    return Ok;
  }

  method Handle(req: Request, e: Event) returns (r: Outcome)
    requires O.FilesOk(req.state.files)
    modifies req
    ensures Step(req.Value(), r) == O.Handle(old(req.Value()), e)
  {
    match e {
      case Frame(wire) =>
        r := HandleFrame(req, wire);
      case Front(id, action) =>
        if id == req.env.id && action == CancelTransfer {
          r := req.EndSession(Cancelled);
        } else {
          r := Ok;
        }
      case Closed =>
        r := Err(Io);
    }
  }
}
