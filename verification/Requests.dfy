/** The fields and methods that `InboundRequest` and `OutboundRequest` declare identically, over mutable
    state. Every method is specified by the operation of the same name on the value it holds. */
module Requests {
  import opened Wrappers
  import opened Messages
  import opened Libraries
  import opened SecureChannel
  import opened Peers

  class Request {
    const env: Env
    var state: InnerState
    var keys: Option<SessionKeys>
    var io: Option<nat>
    var out: seq<Bytes>
    var disk: Disk
    // Reusable encoding buffers; they hold whatever the last message left in them.
    var encodeBuf: Bytes
    var frameBuf: Bytes
    ghost var sent: seq<OfflineFrame>
    var told: seq<ChannelMessage>

    ghost function Value(): Peer
      reads this
    {
      Peer(env, state, keys, io, out, sent, told, disk)
    }

    constructor (env: Env, io: Option<nat>, names: set<string>, meta: Option<TransferMetadata>)
      ensures this.env == env && Value() == Fresh(env, io, names, meta)
    {
      this.env := env;
      this.state := InnerState(Initial, 0, 0, NO_HANDSHAKE, None, None, meta, map[], None, map[], 0);
      this.keys := None;
      this.io := io;
      this.out := [];
      this.sent := [];
      this.told := [];
      this.disk := Disk(names, map[], map[]);
      this.encodeBuf := [];
      this.frameBuf := [];
    }

    method UpdateState(next: InnerState, inform: bool)
      modifies this
      ensures Value() == Update(old(Value()), next, inform)
    {
      state := next;
      if !inform {
        return;
      }
      told := told + [ChannelMessage(env.id, state.state, state.meta)];
    }

    method SpendIo() returns (r: Outcome)
      modifies this
      ensures Broken(old(Value())) ==> r == Err(Io) && Value() == old(Value())
      ensures !Broken(old(Value())) ==> r == Ok && Value() == Spend(old(Value()))
    {
      if io == Some(0) {
        return Err(Io);
      }
      if io.Some? {
        io := Some(io.value - 1);
      }
      return Ok;
    }

    method SendFrame(data: Bytes) returns (r: Outcome)
      modifies this
      ensures Step(Value(), r) == Peers.SendFrame(old(Value()), data)
    {
      r := SpendIo();
      if r.Err? {
        return;
      }
      out := out + [data];
      return Ok;
    }

    /** `encrypt_and_send` with its two reused buffers: whatever they held before, the message written
        is the sealed frame, and 16 spare bytes always leave room for the padding. */
    method EncryptAndSend(frame: OfflineFrame) returns (r: Outcome)
      modifies this
      ensures Step(Value(), r) == Peers.EncryptAndSend(old(Value()), frame)
    {
      state := state.(serverSeq := state.serverSeq + 1);
      if keys.None? {
        return Err(Panic(NoSessionKeys));
      }
      var iv := env.tape.ivs(state.serverSeq);
      ghost var before := Value();
      var buf := SealFrame(frame, iv);
      assert Value() == before;
      r := Transmit(buf, frame);
    }

    method Transmit(wire: Bytes, frame: OfflineFrame) returns (r: Outcome)
      modifies this
      ensures Step(Value(), r) == Peers.Transmit(old(Value()), wire, frame)
    {
      r := SendFrame(wire);
      if r.Err? {
        return;
      }
      encodeBuf := wire;
      sent := sent + [frame];
      return Ok;
    }

    method SealFrame(frame: OfflineFrame, iv: Bytes) returns (buf: Bytes)
      requires keys.Some?
      modifies this`encodeBuf, this`frameBuf
      ensures buf == Seal(env.lib, keys.value, iv, state.serverSeq, frame)
    {
      EncryptBody(frame, iv);
      buf := SignBody(iv);
    }

    /** Encode the frame into frameBuf, wrap it, encrypt it in encodeBuf and move the ciphertext to frameBuf. */
    method EncryptBody(frame: OfflineFrame, iv: Bytes)
      requires keys.Some?
      modifies this`encodeBuf, this`frameBuf
      ensures var plain := env.lib.encD2d(DeviceToDevice(state.serverSeq, env.lib.encOffline(frame)));
              frameBuf == env.lib.cbcEncrypt(keys.value.encrypt, iv, Pad(plain))
    {
      frameBuf := [];
      frameBuf := frameBuf + env.lib.encOffline(frame);
      assert frameBuf == env.lib.encOffline(frame);
      var d2d := DeviceToDevice(state.serverSeq, frameBuf);
      frameBuf := [];
      encodeBuf := [];
      encodeBuf := encodeBuf + env.lib.encD2d(d2d);
      assert encodeBuf == env.lib.encD2d(d2d);
      frameBuf := d2d.message;
      var plainLength := |encodeBuf|;
      encodeBuf := encodeBuf + Fill(16, 0);
      assert encodeBuf[..plainLength] == env.lib.encD2d(d2d);
      var cipherLength := EncryptInPlace(keys.value.encrypt, iv, plainLength);
      encodeBuf := encodeBuf[..cipherLength];
      encodeBuf, frameBuf := frameBuf, encodeBuf;
    }

    /** Encode the header and body, then the signed message around them, through encodeBuf. */
    method SignBody(iv: Bytes) returns (buf: Bytes)
      requires keys.Some?
      modifies this`encodeBuf, this`frameBuf
      ensures var hb := env.lib.encHb(HeaderAndBody(iv, old(frameBuf)));
              buf == env.lib.encSm(SecureMessage(hb, env.lib.mac(keys.value.sendMac, hb)))
    {
      var hb := HeaderAndBody(iv, frameBuf);
      frameBuf := [];
      encodeBuf := [];
      encodeBuf := encodeBuf + env.lib.encHb(hb);
      assert encodeBuf == env.lib.encHb(hb);
      frameBuf := hb.body;
      var smsg := SecureMessage(encodeBuf, env.lib.mac(keys.value.sendMac, encodeBuf));
      encodeBuf := [];
      encodeBuf := encodeBuf + env.lib.encSm(smsg);
      buf := encodeBuf;
      encodeBuf := [];
    }

    /** `encrypt_padded_mut`: pad the first `length` bytes of encodeBuf, encrypt the padded blocks where
        they are, and leave the bytes behind them alone. */
    method EncryptInPlace(key: Bytes, iv: Bytes, length: nat) returns (cipherLength: nat)
      requires length + 16 <= |encodeBuf|
      modifies this`encodeBuf
      ensures var padded := Pad(old(encodeBuf[..length]));
              encodeBuf == env.lib.cbcEncrypt(key, iv, padded) + old(encodeBuf)[|padded|..]
              && cipherLength == |env.lib.cbcEncrypt(key, iv, padded)|
    {
      var n := PadLength(length);
      encodeBuf := encodeBuf[..length] + Fill(n, n) + encodeBuf[length + n..];
      assert encodeBuf[..length + n] == Pad(old(encodeBuf[..length]));
      assert encodeBuf[length + n..] == old(encodeBuf)[length + n..];
      var ciphertext := env.lib.cbcEncrypt(key, iv, encodeBuf[..length + n]);
      encodeBuf := ciphertext + encodeBuf[length + n..];
      cipherLength := |ciphertext|;
    }

    method SendEncryptedFrame(frame: ShareFrame) returns (r: Outcome)
      modifies this
      ensures Step(Value(), r) == SendEncrypted(old(Value()), frame)
    {
      var body := env.lib.encShare(frame);
      var id := env.tape.payloadIds(state.serverSeq);
      :- EncryptAndSend(BodyChunk(id, body));
      :- EncryptAndSend(LastChunk(id, body));
      return Ok;
    }

    method Disconnection() returns (r: Outcome)
      modifies this
      ensures Step(Value(), r) == Disconnect(old(Value()))
    {
      r := EncryptAndSend(OfflineFrame(Some(V1Frame.Disconnection)));
    }

    method EndSession(final: State) returns (r: Outcome)
      modifies this
      ensures Step(Value(), r) == End(old(Value()), final)
    {
      UpdateState(state.(state := final), true);
      :- Disconnection();
      return Err(NotAnError);
    }

    method SendUkey2Alert(alert: AlertType, reason: Reason) returns (r: Outcome)
      modifies this
      ensures Step(Value(), r) == Alert(old(Value()), alert, reason)
    {
      var message := env.lib.encUkey(AlertMsg(alert));
      :- SendFrame(message);
      return Err(Refused(reason));
    }

    /** The byte accounting of one chunk; the front end hears of it every 256 KiB. */
    method ReportProgress(files: map<int, FileInfo>, bytes: nat)
      modifies this
      ensures Value() == Progress(old(Value()), files, bytes)
    {
      var newAck := (if state.meta.Some? then state.meta.value.ackBytes else 0) + bytes;
      var shouldNotify := newAck - state.lastNotified >= NOTIFY_STEP;
      UpdateState(
        state.(files := files,
               meta := WithAck(state.meta, newAck),
               lastNotified := if shouldNotify then newAck else state.lastNotified),
        shouldNotify);
    }

    method Decrypt(wire: Bytes) returns (r: Outcome, frame: V1Frame)
      modifies this
      ensures Incoming(Value(), r, frame) == ReceiveSecure(old(Value()), wire)
    {
      frame := OtherV1;
      if env.lib.decSm(wire).None? {
        return Err(Refused(Undecodable)), frame;
      }
      if keys.None? {
        return Err(Panic(NoSessionKeys)), frame;
      }
      var message := Open(env.lib, keys.value, wire);
      if message.Refusal? {
        return Err(Refused(message.reason)), frame;
      }
      state := state.(clientSeq := state.clientSeq + 1);
      if message.d2d.sequence != state.clientSeq {
        return Err(Refused(BadSequence)), frame;
      }
      var offline := env.lib.decOffline(message.d2d.message);
      if offline.None? {
        return Err(Refused(Undecodable)), frame;
      }
      if offline.value.v1.None? {
        return Err(Refused(MissingField)), frame;
      }
      return Ok, offline.value.v1.value;
    }

    method GatherChunk(header: PayloadHeader, chunk: PayloadChunk) returns (r: Outcome, complete: Option<Bytes>)
      modifies this
      ensures Gathered(Value(), r, complete) == Gather(old(Value()), header, chunk)
    {
      var id := header.id;
      if header.totalSize > SANE_FRAME_LENGTH {
        state := state.(buffers := state.buffers - {id});
        return Err(Refused(PayloadTooLarge)), None;
      }
      if id !in state.buffers {
        if header.totalSize < 0 {
          return Err(Panic(Overflow)), None;
        }
        state := state.(buffers := state.buffers[id := []]);
      }
      if chunk.offset != |state.buffers[id]| {
        state := state.(buffers := state.buffers - {id});
        assert state.buffers == old(state.buffers) - {id};
        return Err(Refused(BadOffset)), None;
      }
      state := state.(buffers := state.buffers[id := state.buffers[id] + chunk.body]);
      assert state.buffers == old(state.buffers)[id := state.buffers[id]];
      if chunk.IsLast() {
        return Ok, Some(state.buffers[id]);
      }
      return Ok, None;
    }
  }
}
