/** The methods of `InboundRequest` (hdl/inbound.rs) over mutable state, each specified by the function
    of the same name in module Inbound. */
module InboundRequests {
  import opened Wrappers
  import opened Messages
  import opened Libraries
  import opened SecureChannel
  import opened Peers
  import opened Requests
  import I = Inbound
  import Destination
  import PinCode
  import PointCodec

  method New(env: Env, io: Option<nat>, names: set<string>) returns (req: Request)
    ensures fresh(req) && req.env == env && req.Value() == I.Start(env, io, names)
  {
    req := new Request(env, io, names, None);
  }

  method ProcessUkey2ClientInit(req: Request, m: Ukey2Message) returns (r: Outcome)
    modifies req
    ensures Step(req.Value(), r) == I.ProcessClientInit(old(req.Value()), m)
  {
    if !m.ClientInitMsg? {
      r := req.SendUkey2Alert(BadMessageType, UnexpectedType);
      return;
    }
    if m.clientInit.None? {
      r := req.SendUkey2Alert(BadMessageData, Undecodable);
      return;
    }
    var init := m.clientInit.value;
    if init.version != 1 {
      r := req.SendUkey2Alert(BadVersionAlert, BadVersion);
      return;
    }
    if |init.random| != 32 {
      r := req.SendUkey2Alert(BadRandomAlert, BadRandom);
      return;
    }
    var found := FindCommitment(init.commitments);
    if found.None? {
      r := req.SendUkey2Alert(BadCipherAlert, BadCipher);
      return;
    }
    req.UpdateState(req.state.(hs := req.state.hs.(commitment := found)), false);
    if init.nextProtocol != NEXT_PROTOCOL {
      r := req.SendUkey2Alert(BadNextProtocolAlert, BadNextProtocol);
      return;
    }
    r := AnswerClientInit(req);
  }

  /** The search for the preferred cipher: the loop stops at the first commitment that fits. */
  method FindCommitment(commitments: seq<CipherCommitment>) returns (found: Option<CipherCommitment>)
    ensures found == I.Preferred(commitments)
    ensures found.Some? ==> found.value in commitments && found.value.cipher == P256Sha512
    ensures found.None? ==> forall c | c in commitments :: c.cipher != P256Sha512
  {
    assert commitments[0..] == commitments;
    for i := 0 to |commitments|
      invariant I.Preferred(commitments) == I.Preferred(commitments[i..])
      invariant forall c | c in commitments[..i] :: c.cipher != P256Sha512
    {
      if commitments[i].cipher == P256Sha512 {
        return Some(commitments[i]);
      }
      assert commitments[i..][1..] == commitments[i + 1..];
    }
    assert commitments[..|commitments|] == commitments;
    return None;
  }

  method AnswerClientInit(req: Request) returns (r: Outcome)
    modifies req
    ensures Step(req.Value(), r) == I.AnswerClientInit(old(req.Value()))
  {
    var lib, tape := req.env.lib, req.env.tape;
    var key := PointCodec.Published(lib.publicKey(tape.privateKey));
    var serverInit := ServerInit(1, tape.random, P256Sha512, Some(PublicKeyMsg(Some(key))));
    var data := lib.encUkey(ServerInitMsg(Some(serverInit)));
    req.UpdateState(
      req.state.(hs := req.state.hs.(privateKey := Some(tape.privateKey), serverInit := Some(data))), false);
    r := req.SendFrame(data);
  }

  method FinalizeKeyExchange(req: Request, key: PublicKeyMsg) returns (r: Outcome)
    modifies req
    ensures Step(req.Value(), r) == I.Finalize(old(req.Value()), key)
  {
    if key.ec.None? {
      return Err(Refused(MissingField));
    }
    var point := PointCodec.Recover(key.ec.value);
    if point.None? {
      return Err(Refused(BadPoint));
    }
    if !req.env.lib.onCurve(point.value) {
      return Err(Panic(PointOffCurve));
    }
    var hs := req.state.hs;
    if hs.privateKey.None? || hs.clientInit.None? || hs.serverInit.None? {
      return Err(Panic(NoHandshakeData));
    }
    var s := Schedule(req.env.lib, req.env.lib.dh(hs.privateKey.value, point.value),
                      hs.clientInit.value, hs.serverInit.value);
    req.keys := Some(SessionKeys(s.serverKey, s.clientKey, s.serverMac, s.clientMac));
    var pin := PinCode.ToFourDigitString(s.auth);
    req.UpdateState(req.state.(pin := Some(pin)), false);
    return Ok;
  }

  method ProcessUkey2ClientFinish(req: Request, m: Ukey2Message, wire: Bytes) returns (r: Outcome)
    modifies req
    ensures Step(req.Value(), r) == I.ProcessClientFinish(old(req.Value()), m, wire)
  {
    if !m.ClientFinishMsg? {
      r := req.SendUkey2Alert(BadMessageType, UnexpectedType);
      return;
    }
    if req.state.hs.commitment.None? {
      return Err(Panic(NoHandshakeData));
    }
    if req.state.hs.commitment.value.commitment != req.env.lib.sha512(wire) {
      return Err(Refused(BadCommitment));
    }
    if m.finished.None? || m.finished.value.publicKey.None? {
      return Err(Refused(Undecodable));
    }
    r := FinalizeKeyExchange(req, m.finished.value.publicKey.value);
  }

  method ProcessConnectionResponse(req: Request, frame: OfflineFrame) returns (r: Outcome)
    modifies req
    ensures Step(req.Value(), r) == I.ProcessConnectionResponse(old(req.Value()), frame)
  {
    if frame.v1.None? {
      return Err(Refused(MissingField));
    }
    if !frame.v1.value.ConnectionResponse? {
      return Err(Refused(UnexpectedType));
    }
    :- req.SendFrame(req.env.lib.encOffline(I.ACCEPT_CONNECTION));
    r := req.SendEncryptedFrame(PairedKeyEncryptionFrame());
  }

  /** Note the announced files with a free destination for each, and ask the user. */
  method AskForFiles(req: Request, list: seq<FileMetadata>) returns (r: Outcome)
    modifies req
    ensures Step(req.Value(), r) == I.AskForFiles(old(req.Value()), list)
  {
    var transferredFiles := req.state.files;
    var filesName: seq<string> := [];
    var totalBytes := 0;
    for i := 0 to |list|
      invariant I.Intake(transferredFiles, filesName, totalBytes)
             == I.Taken(req.state.files, req.disk.names, list, i)
      invariant req.Value() == old(req.Value())
    {
      var file := list[i];
      var dest := Destination.ChooseDestination(req.disk.names, file.name);
      totalBytes := I.WrapAdd(totalBytes, I.AsU64(file.size));
      transferredFiles := transferredFiles[file.payloadId := FileInfo(dest, 0, file.size, None)];
      filesName := filesName + [file.name];
    }
    var metadata := TransferMetadata(req.state.pin, filesName, totalBytes, 0, None);
    req.UpdateState(req.state.(files := transferredFiles, meta := Some(metadata)), true);
    return Ok;
  }

  method AskForText(req: Request, payloadId: int) returns (r: Outcome)
    modifies req
    ensures Step(req.Value(), r) == I.AskForText(old(req.Value()), payloadId)
  {
    var metadata := TransferMetadata(req.state.pin, [], 0, 0, None);
    req.UpdateState(req.state.(text := Some(payloadId), meta := Some(metadata)), true);
    return Ok;
  }

  method ProcessIntroduction(req: Request, v1: ShareV1) returns (r: Outcome)
    modifies req
    ensures Step(req.Value(), r) == I.ProcessIntroduction(old(req.Value()), v1)
  {
    if v1.introduction.None? {
      return Err(Refused(MissingField));
    }
    var introduction := v1.introduction.value;
    req.UpdateState(req.state.(state := WaitingForUserConsent), false);
    if |introduction.files| > 0 && |introduction.texts| == 0 {
      r := AskForFiles(req, introduction.files);
    } else if |introduction.texts| == 1 {
      var meta := introduction.texts[0];
      if meta.ttype == UnknownText {
        r := req.SendEncryptedFrame(ResponseFrame(UnsupportedAttachmentType));
      } else {
        r := AskForText(req, meta.payloadId);
      }
    } else if |introduction.wifis| == 1 {
      r := AskForText(req, introduction.wifis[0]);
    } else {
      r := req.SendEncryptedFrame(ResponseFrame(UnsupportedAttachmentType));
    }
  }

  method CreateFiles(req: Request, ids: seq<int>) returns (r: Outcome)
    modifies req
    ensures Step(req.Value(), r) == I.CreateAll(old(req.Value()), ids)
  {
    assert ids[0..] == ids;
    for i := 0 to |ids|
      invariant I.CreateAll(req.Value(), ids[i..]) == I.CreateAll(old(req.Value()), ids)
    {
      assert ids[i..][1..] == ids[i + 1..];
      r := CreateFile(req, ids[i], ids[i..]);
      if r.Err? {
        return;
      }
    }
    return Ok;
  }

  method CreateFile(req: Request, id: int, ghost ids: seq<int>) returns (r: Outcome)
    requires |ids| > 0 && ids[0] == id
    modifies req
    ensures r.Ok? ==> I.CreateAll(req.Value(), ids[1..]) == I.CreateAll(old(req.Value()), ids)
    ensures r.Err? ==> Step(req.Value(), r) == I.CreateAll(old(req.Value()), ids)
  {
    if id !in req.state.files {
      return Err(Panic(NoOpenFile));
    }
    var mfi := req.state.files[id];
    :- req.SpendIo();
    req.state := req.state.(files := req.state.files[id := mfi.(handle := Some(OpenFile([], 0)))]);
    req.disk := req.disk.Created(id, mfi.path);
    return Ok;
  }

  method AcceptTransfer(req: Request) returns (r: Outcome)
    modifies req
    ensures Step(req.Value(), r) == I.AcceptTransfer(old(req.Value()))
  {
    var ids := req.env.tape.order(req.state.files.Keys);
    :- CreateFiles(req, ids);
    :- req.SendEncryptedFrame(ResponseFrame(Accept));
    req.UpdateState(req.state.(state := ReceivingFiles), true);
    return Ok;
  }

  method WriteChunk(req: Request, id: int, body: Bytes) returns (r: Outcome)
    requires id in req.state.files
    modifies req
    ensures Step(req.Value(), r) == I.WriteChunk(old(req.Value()), id, body)
  {
    var info := req.state.files[id];
    if info.handle.None? {
      return Err(Panic(NoOpenFile));
    }
    :- req.SpendIo();
    var handle := info.handle.value;
    var data := handle.data + body;
    req.disk := req.disk.Grown(id, info.path, data, handle.cursor, body);
    var moved := info.(transferred := info.transferred + |body|,
                       handle := Some(OpenFile(data, handle.cursor + |body|)));
    req.ReportProgress(req.state.files[id := moved], |body|);
    return Ok;
  }

  /** The File branch of `decrypt_and_process_secure_message`. */
  method ProcessFileChunk(req: Request, header: PayloadHeader, chunk: PayloadChunk) returns (r: Outcome)
    modifies req
    ensures Step(req.Value(), r) == I.OnFileChunk(old(req.Value()), header, chunk)
  {
    var id := header.id;
    if id !in req.state.files {
      return Err(Refused(UnknownPayload));
    }
    var info := req.state.files[id];
    if chunk.offset != info.transferred {
      return Err(Refused(BadOffset));
    }
    if info.transferred + |chunk.body| > info.total {
      return Err(Refused(ExcessBytes));
    }
    if |chunk.body| > 0 {
      :- WriteChunk(req, id, chunk.body);
    } else if chunk.IsLast() {
      req.state := req.state.(files := req.state.files - {id});
      if |req.state.files| == 0 {
        r := req.EndSession(Finished);
        return;
      }
    }
    return Ok;
  }

  method ProcessText(req: Request, data: Bytes) returns (r: Outcome)
    modifies req
    ensures Step(req.Value(), r) == I.OnText(old(req.Value()), data)
  {
    var text := I.Cut(data);
    if !req.env.lib.utf8(text) {
      return Err(Refused(Undecodable));
    }
    if req.state.meta.Some? {
      req.UpdateState(req.state.(meta := Some(req.state.meta.value.(text := Some(text)))), false);
    }
    r := req.EndSession(Finished);
  }

  method ProcessTransferSetup(req: Request, frame: ShareFrame) returns (r: Outcome)
    modifies req
    ensures Step(req.Value(), r) == I.OnSetup(old(req.Value()), frame)
  {
    if frame.v1.None? {
      return Err(Refused(MissingField));
    }
    var v1 := frame.v1.value;
    if v1.stype == CancelType {
      r := req.EndSession(Cancelled);
      return;
    }
    match req.state.state {
      case SentConnectionResponse =>
        if !v1.hasPairedKeyEncryption {
          return Err(Refused(MissingField));
        }
        :- req.SendEncryptedFrame(PairedKeyResultFrame());
        req.UpdateState(req.state.(state := SentPairedKeyResult), false);
      case SentPairedKeyResult =>
        if !v1.hasPairedKeyResult {
          return Err(Refused(MissingField));
        }
        req.UpdateState(req.state.(state := ReceivedPairedKeyResult), false);
      case ReceivedPairedKeyResult =>
        :- ProcessIntroduction(req, v1);
      case _ =>
    }
    return Ok;
  }

  method ProcessBytesChunk(req: Request, header: PayloadHeader, chunk: PayloadChunk) returns (r: Outcome)
    modifies req
    ensures Step(req.Value(), r) == I.OnBytes(old(req.Value()), header, chunk)
  {
    var complete :- req.GatherChunk(header, chunk);
    if complete.None? {
      return Ok;
    }
    if req.state.text == Some(header.id) {
      r := ProcessText(req, complete.value);
      return;
    }
    var inner := req.env.lib.decShare(complete.value);
    if inner.None? {
      return Err(Refused(Undecodable));
    }
    r := ProcessTransferSetup(req, inner.value);
  }

  method DecryptAndProcessSecureMessage(req: Request, wire: Bytes) returns (r: Outcome)
    modifies req
    ensures Step(req.Value(), r) == I.OnSecure(old(req.Value()), wire)
  {
    var v1 :- req.Decrypt(wire);
    match v1 {
      case Payload(transfer) =>
        if transfer.None? || transfer.value.header.None? || transfer.value.chunk.None? {
          return Err(Refused(MissingField));
        }
        var header, chunk := transfer.value.header.value, transfer.value.chunk.value;
        match header.ptype {
          case BytesPayload =>
            :- ProcessBytesChunk(req, header, chunk);
          case FilePayload =>
            :- ProcessFileChunk(req, header, chunk);
          case _ =>
        }
      case KeepAlive(_) =>
        :- req.EncryptAndSend(OfflineFrame(Some(KeepAlive(true))));
      case _ =>
    }
    return Ok;
  }

  method HandleHandshake(req: Request, wire: Bytes) returns (r: Outcome)
    requires req.state.state.ReceivedConnectionRequest? || req.state.state.SentUkeyServerInit?
    modifies req
    ensures old(req.state.state).ReceivedConnectionRequest?
            ==> Step(req.Value(), r) == I.OnClientInit(old(req.Value()), wire)
    ensures old(req.state.state).SentUkeyServerInit?
            ==> Step(req.Value(), r) == I.OnClientFinish(old(req.Value()), wire)
  {
    var m := req.env.lib.decUkey(wire);
    if m.None? {
      return Err(Refused(Undecodable));
    }
    if req.state.state.ReceivedConnectionRequest? {
      :- ProcessUkey2ClientInit(req, m.value);
      req.UpdateState(
        req.state.(state := SentUkeyServerInit, hs := req.state.hs.(clientInit := Some(wire))), false);
    } else {
      :- ProcessUkey2ClientFinish(req, m.value, wire);
      req.UpdateState(req.state.(state := ReceivedUkeyClientFinish), false);
    }
    return Ok;
  }

  method HandleFrame(req: Request, wire: Bytes) returns (r: Outcome)
    modifies req
    ensures Step(req.Value(), r) == I.OnFrame(old(req.Value()), wire)
  {
    if |wire| > SANE_FRAME_LENGTH {
      return Err(Refused(FrameTooBig));
    }
    match req.state.state {
      case Initial =>
        var frame := req.env.lib.decOffline(wire);
        if frame.None? {
          return Err(Refused(Undecodable));
        }
        var rdi := I.ProcessConnectionRequest(req.env.lib, frame.value);
        if rdi.Malformed? {
          return Err(Refused(rdi.reason));
        }
        req.UpdateState(req.state.(state := ReceivedConnectionRequest, remote := Some(rdi.info)), false);
      case ReceivedConnectionRequest =>
        :- HandleHandshake(req, wire);
      case SentUkeyServerInit =>
        :- HandleHandshake(req, wire);
      case ReceivedUkeyClientFinish =>
        var frame := req.env.lib.decOffline(wire);
        if frame.None? {
          return Err(Refused(Undecodable));
        }
        :- ProcessConnectionResponse(req, frame.value);
        req.UpdateState(req.state.(state := SentConnectionResponse), false);
      case _ =>
        :- DecryptAndProcessSecureMessage(req, wire);
    }
    return Ok;
  }

  method HandleAction(req: Request, action: ChannelAction) returns (r: Outcome)
    modifies req
    ensures Step(req.Value(), r) == I.OnAction(old(req.Value()), action)
  {
    match action {
      case AcceptTransfer =>
        r := AcceptTransfer(req);
      case RejectTransfer =>
        req.UpdateState(req.state.(state := Rejected), true);
        :- req.SendEncryptedFrame(ResponseFrame(Reject));
        r := Err(NotAnError);
      case CancelTransfer =>
        r := req.EndSession(Cancelled);
    }
  }

  method Handle(req: Request, e: Event) returns (r: Outcome)
    modifies req
    ensures Step(req.Value(), r) == I.Handle(old(req.Value()), e)
  {
    match e {
      case Frame(wire) =>
        r := HandleFrame(req, wire);
      case Front(id, action) =>
        if id == req.env.id {
          r := HandleAction(req, action);
        } else {
          r := Ok;
        }
      case Closed =>
        r := Err(Io);
    }
  }
}
