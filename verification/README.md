# Quick Share peer protocol: a verified model

Quick Share sends files between two devices on one network. A sender (`OutboundRequest`) connects to a
receiver (`InboundRequest`); they exchange keys with a UKEY2-style handshake, talk through an encrypted and
numbered channel, agree on a list of files, ask the receiving user, and then stream the files in chunks.
`TcpServer` runs one loop per connection and tells the front end how each session ends. This project models
both requests, the loops that drive them, the encoders in `utils.rs`, and the two requests joined by two
streams, and proves what the protocol is for.

## How it is built

`Peers.dfy` describes one side of a session as a value: its inner state, its session keys, everything it has
written to the socket, everything it has told the front end, and what it has written to disk. `Outbound.dfy`
and `Inbound.dfy` give, as functions on that value, what each method of the two requests does, branch by
branch and error by error. `Requests.dfy`, `OutboundRequests.dfy` and `InboundRequests.dfy` are the requests
themselves: methods that change a `Request` object, with its reused buffers, its loops and its tables, each
proved equal to the function. The fields and methods that the two source classes declare identically live
once, in class `Request`. Everything else is proved about the functions.

| File | Contents |
| --- | --- |
| `Wrappers.dfy`, `Messages.dfy` | options, outcomes and errors; the frames and the shared session state |
| `Libraries.dfy` | protobuf, AES-CBC, HMAC, SHA-2, HKDF and P-256 as functions with the laws they are used for; PKCS#7; the key ladder |
| `PointCodec.dfy`, `PinCode.dfy`, `Base64Url.dfy`, `EndpointInfo.dfy`, `Decimals.dfy`, `Destination.dfy` | the encoders of `utils.rs` and the collision loop for file names |
| `SecureChannel.dfy`, `Reassembly.dfy`, `Ledgers.dfy` | one sealed message, framing; byte payloads in chunks; byte accounting |
| `Peers.dfy`, `Outbound.dfy`, `Inbound.dfy` | both sides as functions |
| `Requests.dfy`, `OutboundRequests.dfy`, `InboundRequests.dfy`, `Manager.dfy` | both sides as objects, and the connection loops |
| `OutboundSafety.dfy`, `InboundSafety.dfy`, `InboundLedger.dfy`, `Aborts.dfy` | invariants of each side against any peer, the receiver's byte ledger, and the events that abort |
| `Handshakes.dfy`, `Authenticity.dfy`, `Replies.dfy`, `FrontEnd.dfy` | each side against any peer: which handshake messages it goes on with, that only signed messages count, what each request is answered with, what the user is shown |
| `ChannelOrder.dfy`, `LetterCalls.dfy`, `Integrity.dfy` | both sides under a network that drops, repeats and reorders messages: order, the calls of the sharing state machine, and what is written |
| `Histories.dfy` | runs of any step function |
| `Sessions.dfy`, `SessionHandshake.dfy`, `Delivery.dfy`, `SessionTransfer.dfy`, `SessionRuns.dfy`, `SessionTheorems.dfy` | the composed system, its joint invariant, and the theorems about its runs |
| `SessionFiles.dfy`, `SessionKeyLoss.dfy` | the receiver's directory after a run, by path; runs with keys that do not survive their encoding |
| `SessionDisruptions.dfy`, `SessionConsent.dfy`, `SessionFrontEnds.dfy` | the composed system with cancellation, refusal, failing I/O and broken connections: what is written, consent, and what both users see |

## What is assumed

Against any peer, each side is proved safe for arbitrary bytes on the socket, arbitrary I/O failures and
arbitrary short reads. The front end acts only on a session it has heard of, and accepts only while it is
asked (`Sensible`). Listing a map's keys lists each of them (`LawfulTape`). Where a lemma speaks of the announced
total, the announced sizes fit a signed 64-bit integer, as the protobuf field does (`InboundLedger.Int64Sizes`).

A configuration of the composed system names the two sides and the names in the receiver's download directory. A
run is a list of moves and the states they lead through (`SessionTheorems.At`, `Histories.Leads`); a move lets
one side read its next message, lets the sender take one turn of its loops, or lets the user accept. The proofs
work with a plan, a configuration together with the messages, key schedule and PIN of its session worked out
beforehand (`Scripted`); every honest configuration has one (`PlanFor`).

For the composed system (`Honest`): both sides use the same libraries, and these obey `Lawful`; initialisation
vectors have 16 bytes; the init messages carry 32 random bytes; the sender's device name is UTF-8 and at most
255 bytes; the file ids drawn for one offer are distinct, and so are the payload ids of the six sharing frames;
these frames encode to at most 5 MiB; listing a map's keys lists each of them; at least one readable file is
offered; the offered sizes add up to less than 2^64; both public keys have coordinates of at least 2^247. A source
file keeps its announced length and a read before its end returns at least one byte (`ReadSize`). A run
stops being considered once an encoded message exceeds 5 MiB (`Fitting`). Nobody cancels and the
user, when asked, may accept. Empty files are allowed: the theorems say what happens to them.

`SessionDisruptions` asks neither for large keys nor for short messages nor for quiet users: there (`Decent`)
either user may cancel, the receiving user may decline, each side's I/O may fail after any number of operations,
and either connection may break at any time.

Where the code falls short of what it promises, the failing case and the exact condition are theorems:

- A session between honest peers fails at the key exchange whenever a public key has a coordinate below 2^247:
  no run fails if and only if both keys are large enough (`SessionKeyLoss.NeverFailsExactly`).
- A receiver that was offered an empty file gets every byte but never finishes (`SessionTheorems.FilesDelivered`).
- Destinations are chosen before any file is created, so two offered files with one name get one path and
  overwrite each other: every file is whole under its path if and only if no two different files share a path
  (`SessionFiles.DirectoryDelivered`, `SessionFiles.SameNameLost`).
- The receiver adds announced sizes in an unsigned 64-bit number, which wraps around in the release build
  (`Cargo.toml` sets no overflow checks). Acknowledged plus outstanding bytes stay within the announced total if
  and only if the sizes add up to less than 2^64 (`InboundLedger.PlainIntroduction`); two announcements that
  break it are given.
- Past the key exchange a peer can abort a side in two ways, and the theorems say exactly when (`Aborts`).

## Model

| member | source | states |
|---|---|---|
| SessionTheorems.FilesDelivered | crates/core/src/hdl/outbound.rs:806-965 | in any interleaving, once the user has accepted and nothing more can happen, the sender is Finished, what was written for each payload id is exactly the file offered under it, both sides have acknowledged every byte, and the receiver is Finished if and only if no offered file is empty |
| SessionTheorems.FinishedIsWhole | crates/core/src/hdl/inbound.rs:731-743 | at every point of every run, quiescent or not: a receiver in state Finished has written exactly the offered file for each id and acknowledged every byte, and a sender in state Finished has acknowledged every byte |
| SessionTheorems.NothingElseOnDisk | crates/core/src/hdl/inbound.rs:677-707 | at every point of every run, what was written for an id is the beginning of the file offered under it |
| SessionFiles.DirectoryDelivered | crates/core/src/hdl/inbound.rs:885-948 | by path: once nothing more can happen after acceptance, or the receiver has finished, every file the user chose is whole under the path chosen for it if and only if no two different files were given the same path |
| SessionFiles.SameNameLost | crates/core/src/hdl/inbound.rs:890-911 | two chosen files with the same name and different bytes break that condition |
| SessionTheorems.PayloadDelivered | crates/core/src/hdl/inbound.rs:673-745 | the same once nothing more can happen, file by file of the payload: what was written under the id of the i-th readable file is that file |
| SessionTheorems.NoRunFails | crates/core/src/hdl/inbound.rs:173-258 | no honest run meets any error on either side: no wrong frame type, commitment, HMAC, padding, sequence, offset or size check ever fails; the receiver ends only on purpose, having finished |
| SessionTheorems.RunsGoOn | crates/core/src/hdl/outbound.rs:188-249 | every enabled move leads to a next state |
| SessionTheorems.NotStuckBeforeConsent | crates/core/src/hdl/outbound.rs:591-650 | when nothing can happen without the user and the user has not accepted, the sender is at SentIntroduction, the receiver is at WaitingForUserConsent and the acceptance is possible |
| SessionTheorems.RunsEnd | crates/core/src/hdl/outbound.rs:830-965 | every run has at most 3 * total + (listed files) + 22 moves, whatever the interleaving and however short the reads |
| SessionTheorems.KeysAgree | crates/core/src/hdl/outbound.rs:1022-1104 | once both sides have keys, each side's encrypt and MAC keys are the other's decrypt and verify keys, and both hold the same PIN; that this is the PIN both users are shown is `SessionFrontEnds.SamePinShown` |
| SessionTheorems.ChannelSound | crates/core/src/hdl/inbound.rs:507-547 | from the moment a side expects secure messages, at every point of every run, it stands to the other side as the order theorems below require |
| SessionTheorems.ConsentFirst | crates/core/src/hdl/outbound.rs:794-804 | until the user accepts, the sender is not sending and has sent no frame of a file, and the receiver has created nothing |
| SessionConsent.ConsentFirst | crates/core/src/hdl/outbound.rs:784-999 | the same when things go wrong: whoever cancels or declines and whatever I/O fails, at every point of every run before an acceptance the sender is not in its loops, is neither sending nor finished and has sent no frame of a file, and the receiver has created nothing |
| SessionTheorems.RunJoint | crates/core/src/hdl/inbound.rs:772-830 | the joint invariant over both states and both streams holds at every point of every run |
| SessionDisruptions.NothingElseOnDisk | crates/core/src/hdl/inbound.rs:677-707 | whoever cancels or declines, whatever I/O fails and wherever a connection breaks: at every point of every run, what was written for an id is the beginning of the file offered under it, and empty if none is |
| SessionDisruptions.EndsAnnounced | crates/core/src/manager.rs:72-166 | in all these runs, a side that has ended, unless by an abort, has told its front end so in the last message for its session, once its loop has made the closing broadcast |
| SessionFrontEnds.EndsHeard | crates/core/src/manager.rs:72-166 | in all these runs, what the users last hear of a side that has ended, unless by an abort: the state it ended in if it ended on purpose; that it has finished if its connection broke after that, and for the sender so under every address; that it is disconnected otherwise |
| SessionFrontEnds.DeliveryHeard | crates/core/src/manager.rs:140-166 | a delivery is last heard of as what it is: when everything has been delivered and the peers hang up, the sender's user last hears that the session has finished, under every address, and the receiver's hears so if and only if no offered file is empty, else that it is disconnected |
| SessionFrontEnds.SamePinShown | crates/core/src/hdl/outbound.rs:1084-1099 | at every point of every run, whatever goes wrong: every message with metadata that either front end has got shows the PIN of the shared key schedule; the sender's messages all have it, with every chosen path in order, and there is one exactly from the moment it has keys |
| SessionFrontEnds.UpToDate | crates/core/src/hdl/inbound.rs:709-729 | in all these runs, the last message to each front end shows the state the session is in and its metadata, with an acknowledged count less than 262144 bytes behind during a transfer and exact otherwise |
| SessionFrontEnds.UsersCompare | crates/core/src/hdl/inbound.rs:924-948 | when an honest pair waits for the receiving user, that user's last message is the question, with the PIN of the shared schedule, the names of the readable files in order and their total, and the sender's last message shows the same PIN |
| SessionDisruptions.BothEnd | crates/core/src/hdl/outbound.rs:136-186 | and when nothing more can happen without a connection breaking, either both sides have ended or neither has |
| SessionDisruptions.TurnsGoOn | crates/core/src/hdl/inbound.rs:106-171 | every turn that is possible leads to a next state |
| SessionKeyLoss.NeverFailsExactly | crates/core/src/utils.rs:140-146 | between honest peers whose first messages fit a frame, no run fails on either side if and only if all coordinates of both public keys are at least 2^247 |
| SessionKeyLoss.SmallKeysFail | crates/core/src/hdl/outbound.rs:1033-1041 | otherwise no run gets past the key exchange: nobody is asked, nothing is written, any failure is a refused point, and when nothing more can happen the sender has refused the receiver's point or, if that one is large enough, the receiver the sender's |
| SessionHandshake.ServerInitExactly | crates/core/src/hdl/outbound.rs:1033-1041 | reading the scripted server init, a freshly opened sender goes on with the session keys exactly when both coordinates of the receiver's key are at least 2^247; otherwise it ends on a bad point |
| SessionHandshake.FinishExactly | crates/core/src/hdl/inbound.rs:1133-1144 | the same for a receiver that reads the scripted client finish, and the sender's key |
| SessionHandshake.OfferTaken | crates/core/src/hdl/inbound.rs:885-948 | what the receiver collects from the introduction is the sender's table: same ids and sizes, nothing transferred or opened, and the same total when that is below 2^64 |
| SessionTransfer.OfferIsPayload | crates/core/src/hdl/outbound.rs:684-765 | every readable file of the payload is announced under its own id with its own bytes, in order |
| SessionTransfer.AcceptancePosted | crates/core/src/hdl/inbound.rs:1063-1097 | on acceptance every offered file is created empty and the answer goes out |
| SessionTransfer.FrameArrives | crates/core/src/hdl/inbound.rs:673-745 | the next frame of a transfer is written or closes its file, is never refused, and ends the session exactly when it closes the last file |
| Delivery.TurnPlays | crates/core/src/hdl/outbound.rs:846-965 | one turn of the sender's loops sends the next piece of its current file and nothing else |
| Delivery.TurnShrinks | crates/core/src/hdl/outbound.rs:846-965 | each turn finishes a file or sends at least one byte, in at most two messages |
| OutboundSafety.HandleSafe | crates/core/src/hdl/outbound.rs:136-249 | against any peer, one event moves the sender's state only forward, keeps the invariant (field presence, broadcasts, exact byte conservation, throttle), or ends the run in a closing state |
| OutboundSafety.RunSafe | crates/core/src/hdl/outbound.rs:136-249 | the same over whole runs |
| OutboundSafety.AnnouncedBooks | crates/core/src/hdl/outbound.rs:684-765 | the announced sizes add up to the announced total |
| OutboundSafety.SendLoopSafe | crates/core/src/hdl/outbound.rs:806-965 | the nested sending loops keep acknowledged plus outstanding bytes equal to the total, and k progress broadcasts cover at least k * 262144 acknowledged bytes |
| OutboundSafety.OpenedInv | crates/core/src/manager.rs:113-134 | the invariant holds once the connection is open |
| InboundSafety.HandleSafe | crates/core/src/hdl/inbound.rs:106-258 | against any peer, one event moves the receiver's state only forward, keeps the invariant (field presence, silence before the introduction, file contents, throttle) or ends the run in a closing state, and once files are announced it never increases acknowledged plus outstanding bytes nor changes the total |
| InboundSafety.RunSafe | crates/core/src/hdl/inbound.rs:106-258 | the same over whole runs |
| InboundSafety.NoConsentNoWrite | crates/core/src/hdl/inbound.rs:701-707 | a run in which AcceptTransfer is never handled leaves the disk as it was, whatever the peer sends |
| InboundSafety.AcceptanceTruncatesNothing | crates/core/src/hdl/inbound.rs:1063-1097 | what accepting creates has none of the names that were in the directory when the run began |
| InboundSafety.EventEffect | crates/core/src/hdl/inbound.rs:677-707 | the exact effect of any event but acceptance on the files: a chunk in sequence that fits is appended to its file, everything else writes nothing |
| InboundSafety.FilesAreTheirPieces | crates/core/src/hdl/inbound.rs:677-707 | after an acceptance each file holds what it held plus the accepted bodies for its id, in order |
| InboundLedger.IntroductionExactly | crates/core/src/hdl/inbound.rs:885-948 | right after an introduction, acknowledged plus outstanding bytes are within the announced total exactly when the sizes of the last entries of all ids, negative ones left out, add up to at most the sum of all announced sizes modulo 2^64 |
| InboundLedger.PlainIntroduction | crates/core/src/hdl/inbound.rs:920-922 | for distinct ids and sizes that are not negative: exactly when the sizes add up to less than 2^64 |
| InboundLedger.SmallIntroduction | crates/core/src/hdl/inbound.rs:920-922 | for any ids and sizes: whenever they do |
| InboundLedger.NegativeWraps | crates/core/src/hdl/inbound.rs:920 | announced sizes -1 and 5 make a total of 4 with 5 bytes outstanding |
| InboundLedger.PositiveWraps | crates/core/src/hdl/inbound.rs:920 | sizes 2^63-1, 2^63-1 and 7, all of them possible, make a total of 5 |
| InboundLedger.LedgerKept | crates/core/src/hdl/inbound.rs:106-258 | once it holds after the introduction, no run breaks it, whatever the peer sends |
| InboundLedger.LedgerAlways | crates/core/src/hdl/inbound.rs:106-258 | against any peer, in every run in which the introductions that reach the receiver announce less than 2^64 bytes, it holds at the end |
| Aborts.ReceiverAborts | crates/core/src/hdl/inbound.rs:583-707 | past the key exchange an event aborts the receiver exactly when it is a byte chunk that announces a negative size for a payload without a buffer, or a file chunk with bytes, in sequence and within its size, for a file not created yet |
| Aborts.PrematureIsBeforeConsent | crates/core/src/hdl/inbound.rs:701-707 | the second case arises only while the user is being asked, at offset 0 |
| Aborts.SenderAborts | crates/core/src/hdl/outbound.rs:533-538 | past the key exchange an event aborts the sender exactly in the first of these cases |
| Handshakes.ConnectionRequestExactly | crates/core/src/hdl/inbound.rs:260-311 | against any peer: the receiver goes on exactly with a request that names a device, and remembers that device |
| Handshakes.ClientInitExactly | crates/core/src/hdl/inbound.rs:313-411 | the receiver goes on exactly with a client init of version 1, 32 random bytes, a commitment for the supported cipher and the next protocol; it keeps the message and its first supported commitment and answers with its own init |
| Handshakes.InitRefused | crates/core/src/hdl/inbound.rs:313-411 | any other client init is refused for its first fault, with the alert of that fault and nothing derived |
| Handshakes.ClientFinishExactly | crates/core/src/hdl/inbound.rs:413-453 | the receiver goes on exactly with a finish message whose SHA-512 is the stored commitment and whose key can be used; it then has the keys and the PIN of that key's schedule |
| Handshakes.KeysCommitted | crates/core/src/hdl/inbound.rs:413-453 | in any run against any peer, a receiver that has keys has gone on with exactly one finish message; its digest is the commitment held, and that is the first supported one of the client init it read |
| Handshakes.WrongFinishEnds | crates/core/src/hdl/inbound.rs:424-432 | a finish message with another digest ends the run on the spot on a bad commitment, without keys |
| Handshakes.ServerInitExactly | crates/core/src/hdl/outbound.rs:345-412 | the sender goes on exactly with a server init of version 1, 32 random bytes, the cipher and a key it can use; it then has the keys and the PIN of that key's schedule, and its finish message and an acceptance are out |
| Handshakes.ServerInitRefusedFor | crates/core/src/hdl/outbound.rs:345-412 | any other server init is refused for its first fault, with the alert of that fault if it has one |
| Handshakes.ReceiverResponseExactly | crates/core/src/hdl/inbound.rs:455-505 | the receiver answers any connection response with an acceptance and goes on, and refuses everything else unmoved |
| Handshakes.SenderResponseExactly | crates/core/src/hdl/outbound.rs:414-455 | the sender goes on exactly with an accepting connection response; a denial is refused as one |
| Authenticity.ReceiveExactly | crates/core/src/hdl/inbound.rs:507-547 | exactly this is acted on as a frame, whatever bytes arrive: a message whose signature is the MAC of its header and body under the receiving key, that decrypts to the next number and decodes to the frame |
| Authenticity.OnlySignedCounts | crates/core/src/hdl/inbound.rs:511-521 | of a message with any other signature nothing is heard, no byte payload is completed and no piece of a file is taken |
| Authenticity.ForgeryCutsReceiver | crates/core/src/hdl/inbound.rs:511-521 | such a message anywhere in a run against any peer ends the run there: counter, files, disk and broadcasts are what they were before it |
| Authenticity.ForgeryCutsSender | crates/core/src/hdl/outbound.rs:461-471 | the same for the sender |
| Authenticity.ReceiverRunSigned | crates/core/src/hdl/inbound.rs:507-521 | in a run of a secured receiver that goes through, every message was signed under its receiving key |
| Replies.DeclineExactly | crates/core/src/hdl/inbound.rs:127-138 | a decline tells the front end so and sends the sender one sharing frame, a rejection, as far as I/O goes |
| Replies.AcceptExactly | crates/core/src/hdl/inbound.rs:1063-1097 | an acceptance that goes through sends one sharing frame, an acceptance, and tells the front end that files are coming |
| Replies.AcceptedAfterCreating | crates/core/src/hdl/inbound.rs:1063-1097 | however an acceptance goes, no part of the answer leaves before every announced file has been created, and the front end is told only when all of it has left |
| Replies.CancelFrameCloses | crates/core/src/hdl/inbound.rs:781-794 | a cancel frame, in whatever state of either side, closes the session as cancelled: the front end is told and a disconnection goes out, and files, disk and metadata stay |
| Replies.RefusalCloses | crates/core/src/hdl/outbound.rs:966-996 | any answer but an acceptance closes the sender's session as disconnected, and nothing but the disconnection goes out |
| Replies.ReceiverMissesExactly | crates/core/src/hdl/inbound.rs:796-827 | a sharing frame without what the receiver waits for in its state is refused with nothing moved, and no other frame is |
| Replies.FilesAsked | crates/core/src/hdl/inbound.rs:885-948 | an introduction of files puts their names, in order, their total and the PIN before the user, in one message |
| Replies.TakenTable | crates/core/src/hdl/inbound.rs:885-922 | the table then holds every announced id, with the destination chosen for its last entry and its size, nothing transferred |
| Replies.UnsupportedRefused | crates/core/src/hdl/inbound.rs:996-1037 | an introduction that is neither files, one known text nor one Wi-Fi network is answered with one refusal, and the user hears nothing |
| Replies.FaultyChunkRefused | crates/core/src/hdl/inbound.rs:676-700 | a file chunk is refused exactly for an unknown id, a wrong offset or excess bytes, with nothing moved |
| Replies.LastChunkExactly | crates/core/src/hdl/inbound.rs:730-744 | the last chunk of a file closes it, and the last file closes the session as finished |
| Replies.TextExactly | crates/core/src/hdl/inbound.rs:608-661 | the payload announced as a text finishes the session and shows the text up to the first byte 16, or is refused if that is not UTF-8 |
| FrontEnd.ReceiverAlwaysInformed | crates/core/src/hdl/inbound.rs:709-729 | in any run against any peer: every message of the receiver with metadata shows its PIN, and its last message the session's state and metadata, except progress not yet due |
| FrontEnd.SenderAlwaysBriefed | crates/core/src/hdl/outbound.rs:1084-1099 | the same for the sender, whose every message lists the chosen paths, and which has shown the PIN from the moment it has keys, in the one message it sends before the offer |
| FrontEnd.NeverFarBehind | crates/core/src/hdl/outbound.rs:907-930 | so the count shown during a transfer is less than 262144 bytes behind |
| Manager.Accept | crates/core/src/manager.rs:67-104 | an accepted connection from its first message to its end; when it ends on an error other than an abort, the last broadcast for its id says the session is over, and, unless it ended on purpose, says that it has finished exactly if it had |
| Manager.ServeInbound | crates/core/src/manager.rs:72-97 | the loop over `handle` and the closing broadcast, with what is last heard for the id: finished if the session had finished, nothing if it was still in its initial state, else disconnected |
| Manager.Connect | crates/core/src/manager.rs:113-166 | the connection request, the client init, then the loop; when it ends on an error other than an abort, a session that finished or was cancelled is last heard of as that under every address, and any other is announced as over when the session id is the address |
| Manager.ServeOutbound | crates/core/src/manager.rs:134-166 | the sender's loop and its closing broadcast, sent under the address: what is last heard for the id is finished or cancelled if the session was, under every address, and else disconnected when the address is the id |
| Manager.InboundAnnounced | crates/core/src/manager.rs:74-94 | every inbound session that ends on an error other than an abort is announced under its id |
| Manager.InboundLastHeard | crates/core/src/manager.rs:72-98 | after the closing broadcast: a session that finished is last heard of as finished, one still in its initial state not at all, any other as disconnected; one that ended on purpose as what it said itself |
| Manager.OutboundLastHeard | crates/core/src/manager.rs:140-161 | the same for an outbound session; that it has finished or was cancelled stands under every address the broadcast may go out to |
| Manager.OutboundAnnounced | crates/core/src/manager.rs:140-160 | an outbound session that ends on an error other than an abort is announced exactly when the closing broadcast goes out under its id, the final state was already announced, or nothing was ever announced |
| SecureChannel.OpenSeal | crates/core/src/hdl/inbound.rs:507-547 | opening a sealed frame with the paired keys gives back the frame and its number |
| SecureChannel.OpenExactly | crates/core/src/hdl/inbound.rs:511-540 | a message opens to a content if and only if it is signed under the key, has a 16-byte vector, and decrypts to the padded encoding of that content |
| Sessions.MessageRead | crates/core/src/hdl/inbound.rs:507-547 | with paired keys, the j-th message the other side sent is read as the j-th frame if the counter stands at j, and refused for its sequence number otherwise |
| ChannelOrder.ReceiverInOrder | crates/core/src/hdl/inbound.rs:106-171 | whatever the network drops, repeats or reorders of the other side's messages and whatever the front end does, the receiver's run equals its run on the longest part of the delivery in sending order; if that has not ended it and anything follows, the next message ends it with a bad sequence number |
| ChannelOrder.ReceiverHears | crates/core/src/hdl/inbound.rs:540-547 | the frames such a run acts on are the next ones the other side sent, in order, none left out and none twice |
| ChannelOrder.SenderInOrder | crates/core/src/hdl/outbound.rs:136-186 | the first of these for the sender |
| ChannelOrder.SenderHears | crates/core/src/hdl/outbound.rs:490-497 | the second of these for the sender |
| ChannelOrder.InOrderMeaning | crates/core/src/hdl/inbound.rs:1382-1386 | the in-order part is the longest prefix of the delivery whose messages count up from the number already read |
| Integrity.RunEnds | crates/core/src/hdl/outbound.rs:806-965 | against any peer and any failing I/O, however a run ends: what the sender has sent of a file is its beginning, up to the cursor while the file is open, and all its frames went out sealed and in order |
| Integrity.DeliveryWrites | crates/core/src/hdl/inbound.rs:673-745 | whatever a network makes of the other side's messages, whatever the user does and whichever write fails, what the receiver writes for an id is the beginning of what was sent for it |
| Integrity.WrittenIsOffered | crates/core/src/hdl/inbound.rs:673-745 | both together: what a receiver with the paired keys writes for an id is the beginning of the file the sender offers under it, and empty if none is |
| SecureChannel.StreamRoundTrip | crates/core/src/hdl/outbound.rs:1274-1281 | the concatenated length-prefixed messages parse back to the same list, up to the first one over the frame limit |
| Libraries.UnpadPad | crates/core/src/hdl/outbound.rs:1205-1225 | PKCS#7 padding (section 6.3 of RFC 5652) is undone exactly, and adds 1 to 16 bytes |
| Libraries.UnpadExactly | crates/core/src/hdl/inbound.rs:531-535 | and nothing but the padding of a text unpads to it |
| Libraries.KeysSeparate | crates/core/src/hdl/outbound.rs:1045-1083 | if key derivation has no collisions, the two directions and the two purposes have different keys, none of which is the string the PIN is made of |
| Libraries.ScheduleBinds | crates/core/src/hdl/outbound.rs:1045-1083 | and two sides agree on that string, or on any one key, if and only if they agree on the digest of the secret and have seen the same two init messages |
| Reassembly.AnyInterleaving | crates/core/src/hdl/inbound.rs:572-671 | for any chunks in any interleaving: all are taken exactly when each starts where its own payload ends, announces at most 5 MiB, and does not announce a negative size for a payload without a buffer; then every buffer is the concatenation of the bodies for its id, and each last chunk, in order, completes its payload with all bytes that came for it |
| Reassembly.Independent | crates/core/src/hdl/inbound.rs:572-671 | what completes for one id is what its own chunks alone complete, whatever comes in between |
| Reassembly.LetterOnce | crates/core/src/hdl/outbound.rs:1120-1187 | however other payloads are interleaved, the two chunks of a sent frame complete one payload for its id, with the bytes of the frame |
| Reassembly.EachLetterOnce | crates/core/src/hdl/outbound.rs:1120-1187 | sent one after the other, the two chunks of each frame complete one payload each, in sending order |
| LetterCalls.ReceiverCallsEach | crates/core/src/hdl/inbound.rs:572-671 | in a run of the receiver that hears the chunks of some sharing frames one after the other, with any other messages in between and no text announced, `process_transfer_setup` is called for each of them, once and in order |
| LetterCalls.ReceiverCallsOnce | crates/core/src/hdl/inbound.rs:572-671 | a sharing frame whose chunks are interleaved with those of other payloads is handled at most once, however the run ends, and exactly once when both chunks are heard and the run goes through |
| LetterCalls.ReceiverNeverTwice | crates/core/src/hdl/inbound.rs:507-671 | whatever a network drops, repeats or reorders, a sharing frame sent once is never handled twice |
| LetterCalls.ReceiverCalls | crates/core/src/hdl/inbound.rs:665-669 | each such call is what `handle` makes of the event: the sharing state machine on the decoded payload, with the counter and the buffers moved on |
| LetterCalls.SenderCallsEach | crates/core/src/hdl/outbound.rs:522-565 | the first of these for the sender |
| LetterCalls.SenderCallsOnce | crates/core/src/hdl/outbound.rs:522-565 | the second of these for the sender |
| LetterCalls.SenderCalls | crates/core/src/hdl/outbound.rs:556-561 | the same about a call of the sender |
| PointCodec.PointRoundTrip | crates/core/src/utils.rs:140-146 | the published point is rebuilt exactly when both coordinates are at least 2^247; otherwise the rebuilt string is shorter than 65 bytes |
| PointCodec.CoordinateRoundTrip | crates/core/src/utils.rs:140-146 | the signed big-endian encoding and the last-32-bytes rule give a coordinate back exactly when it is at least 2^247 |
| PinCode.ToFourDigitString | crates/core/src/utils.rs:161-174 | the loop on 32-bit integers never overflows, whatever the length, and prints the PIN of the polynomial hash |
| PinCode.HashMeaning | crates/core/src/utils.rs:161-174 | the hash stays below 9973 in absolute value and is congruent to the signed polynomial in 31 |
| PinCode.MultiplierRange | crates/core/src/utils.rs:161-174 | the multiplier stays strictly between 0 and 9973 |
| PinCode.PinMeaning | crates/core/src/utils.rs:161-174 | the PIN is exactly four digits that denote the absolute value of the hash |
| EndpointInfo.GenMdnsEndpointInfo | crates/core/src/utils.rs:87-103 | the bytes pushed one by one are the endpoint record in unpadded base64url |
| EndpointInfo.MdnsRoundTrip | crates/core/src/utils.rs:105-121 | generate then parse is the identity exactly on names of 1 to 255 bytes, for UTF-8 names and device types 0 to 3 |
| EndpointInfo.Serialize | crates/core/src/utils.rs:51-67 | the endpoint record of the connection request |
| EndpointInfo.EndpointRoundTrip | crates/core/src/hdl/inbound.rs:282-310 | serialising and parsing a UTF-8 device is the identity exactly on names of at most 255 bytes |
| EndpointInfo.TrailingIgnored | crates/core/src/hdl/inbound.rs:282-310 | whatever follows an endpoint record that parses is ignored |
| Base64Url.RoundTrip | crates/core/src/utils.rs:87-121 | decoding inverts encoding (sections 3.2 and 5 of RFC 4648) |
| Base64Url.Canonical | crates/core/src/utils.rs:105-121 | only canonical text decodes: re-encoding gives the text back |
| Destination.ChooseDestination | crates/core/src/hdl/inbound.rs:893-911 | the collision loop ends, with the name itself if it is free and else with `k_name` for the least free k |
| Destination.ChosenIsUnique | crates/core/src/hdl/inbound.rs:893-911 | that choice is determined and never an existing path |
| Requests.Request.constructor | crates/core/src/hdl/outbound.rs:95-134 | a fresh request: state Initial, no keys, nothing sent or told |
| Requests.Request.UpdateState | crates/core/src/hdl/outbound.rs:1288-1308 | the new inner state, and one broadcast of it when asked |
| Requests.Request.SendFrame | crates/core/src/hdl/outbound.rs:1274-1281 | one message on the socket, or an I/O error and nothing |
| Requests.Request.EncryptAndSend | crates/core/src/hdl/outbound.rs:1189-1255 | whatever the two reused buffers held, exactly the sealed frame is written under the next sequence number |
| Requests.Request.SealFrame | crates/core/src/hdl/inbound.rs:1288-1354 | the buffer dance computes the pure SecureMessage encoding |
| Requests.Request.EncryptInPlace | crates/core/src/hdl/outbound.rs:1205-1225 | padding and encryption in place: the plain text is replaced by its padded encryption, 16 spare bytes suffice, and what lies behind is untouched |
| Requests.Request.SendEncryptedFrame | crates/core/src/hdl/outbound.rs:1120-1187 | a sharing frame goes out as a whole-body chunk and an empty last chunk |
| Requests.Request.Disconnection | crates/core/src/hdl/outbound.rs:1001-1020 | the encrypted disconnection frame |
| Requests.Request.SendUkey2Alert | crates/core/src/hdl/outbound.rs:1106-1118 | an alert, then the error |
| Requests.Request.ReportProgress | crates/core/src/hdl/outbound.rs:907-930 | the byte accounting of one chunk and the 256 KiB throttle |
| Requests.Request.Decrypt | crates/core/src/hdl/outbound.rs:457-510 | does what `ReceiveSecure` does: signature, decryption, padding and sequence checks, each with its error; which messages pass is `Authenticity.ReceiveExactly` |
| Requests.Request.GatherChunk | crates/core/src/hdl/outbound.rs:522-560 | one chunk of a byte payload: size limit, offset check, append, completion |
| InboundRequests.ProcessUkey2ClientInit | crates/core/src/hdl/inbound.rs:313-411 | refines the client-init step: version, random, cipher commitment and next protocol, each with its alert |
| InboundRequests.FindCommitment | crates/core/src/hdl/inbound.rs:340-359 | the loop finds the first commitment for the supported cipher |
| InboundRequests.ProcessUkey2ClientFinish | crates/core/src/hdl/inbound.rs:413-453 | does what `ProcessClientFinish` does; which finish messages pass its commitment check is `Handshakes.ClientFinishExactly` |
| InboundRequests.FinalizeKeyExchange | crates/core/src/hdl/inbound.rs:1125-1203 | refines the key derivation with the receiver's choice of keys |
| InboundRequests.ProcessConnectionResponse | crates/core/src/hdl/inbound.rs:455-505 | refines the connection-response step |
| InboundRequests.ProcessIntroduction | crates/core/src/hdl/inbound.rs:867-1040 | refines the introduction: files, text, Wi-Fi or a refusal |
| InboundRequests.AskForFiles | crates/core/src/hdl/inbound.rs:885-948 | the loop over announced files builds the table, the names and the total, which wraps at 64 bits |
| InboundRequests.AcceptTransfer | crates/core/src/hdl/inbound.rs:1063-1097 | refines acceptance: create every file, answer, move on |
| InboundRequests.ProcessFileChunk | crates/core/src/hdl/inbound.rs:673-745 | refines the file branch: unknown id, offset, size, write, close, finish |
| InboundRequests.ProcessBytesChunk | crates/core/src/hdl/inbound.rs:572-671 | refines the bytes branch |
| InboundRequests.ProcessTransferSetup | crates/core/src/hdl/inbound.rs:772-830 | refines the sharing state machine of the receiver |
| InboundRequests.DecryptAndProcessSecureMessage | crates/core/src/hdl/inbound.rs:507-770 | refines the handling of one secure message |
| InboundRequests.HandleFrame | crates/core/src/hdl/inbound.rs:173-258 | refines the dispatch on the session state |
| InboundRequests.HandleAction | crates/core/src/hdl/inbound.rs:124-150 | does what `OnAction` does for accept, reject and cancel; what the sender is told then is `Replies.AcceptExactly`, `Replies.DeclineExactly` and `Replies.CancelExactly` |
| InboundRequests.Handle | crates/core/src/hdl/inbound.rs:106-171 | refines one event |
| OutboundRequests.SendConnectionRequest | crates/core/src/hdl/outbound.rs:251-283 | refines the connection request |
| OutboundRequests.SendUkey2ClientInit | crates/core/src/hdl/outbound.rs:285-343 | refines the client init: the commitment is the SHA-512 of the stored client finish |
| OutboundRequests.ProcessUkey2ServerInit | crates/core/src/hdl/outbound.rs:345-412 | refines the server-init step with its alerts |
| OutboundRequests.FinalizeKeyExchange | crates/core/src/hdl/outbound.rs:1022-1104 | does what `Finalize` does: the key derivation, the sender's choice of keys, and the PIN in the broadcast metadata, which `FrontEnd.SenderAlwaysBriefed` says every message shows |
| OutboundRequests.ProcessConnectionResponse | crates/core/src/hdl/outbound.rs:414-455 | refines the connection-response step |
| OutboundRequests.ProcessPairedKeyResult | crates/core/src/hdl/outbound.rs:676-782 | the loop over the payload builds the announcement, which goes out |
| OutboundRequests.SendFile | crates/core/src/hdl/outbound.rs:846-965 | the inner loop over one file, proved against the turns of the specification |
| OutboundRequests.ProcessConsent | crates/core/src/hdl/outbound.rs:784-999 | the nested sending loops terminate and do what the specification's turns do |
| OutboundRequests.ProcessTransferSetup | crates/core/src/hdl/outbound.rs:591-650 | refines the sharing state machine of the sender |
| OutboundRequests.DecryptAndProcessSecureMessage | crates/core/src/hdl/outbound.rs:457-589 | refines the handling of one secure message |
| OutboundRequests.HandleFrame | crates/core/src/hdl/outbound.rs:188-249 | refines the dispatch on the session state |
| OutboundRequests.Handle | crates/core/src/hdl/outbound.rs:136-186 | refines one event |
| Outbound.TurnKeepsFiles | crates/core/src/hdl/outbound.rs:846-965 | a turn keeps open files consistent, and brings the loops closer to their end |
| Outbound.ConsentedLoop | crates/core/src/hdl/outbound.rs:784-965 | handling the message that carries the acceptance is entering the loops and running them to the end |

## Left out

- AES-CBC, HMAC, SHA-2, HKDF, P-256 and the protobuf codecs are arbitrary functions with the laws in `Libraries.Lawful`; no cryptographic strength is claimed, and that key derivation has no collisions is a hypothesis (`Libraries.Separating`) of the two lemmas that need it and of no other.
- Random values, read sizes, map orders and I/O failures are parameters (`Peers.Tape`, `Peers.Peer.io`); a property holds for all of them.
- Task scheduling and partial socket reads: a length prefix and its body are read as one step, so cancelling a read midway is not covered.
- Broadcast lag: messages a slow listener misses are not modelled; the claims are about the messages broadcast and the actions handled.
- Requests.Request.EncryptAndSend: does not model the wrap-around of the 32-bit sequence counters; fewer than 2^31 secure messages per direction are assumed.
- InboundRequests.ProcessBytesChunk: drops the type of a text and the formatting of Wi-Fi credentials, which only the front end reads.
- OutboundRequests.ProcessPairedKeyResult: the sizes of the sender's own files are unbounded integers, so an overflow of its 64-bit sum is not covered; the composed system assumes less than 2^64 bytes.
- Requests.Request.ReportProgress: the count of acknowledged bytes is unbounded, where the source's has 64 bits.
- InboundRequests.ProcessFileChunk: offsets and sizes are unbounded integers, so an overflow of the signed 64-bit sum is not covered.
- InboundRequests.Handle: an abort inside `handle` is an outcome of its own, after which nothing is claimed: with `panic = "abort"` in the release profile it ends the process, and in a build that unwinds it ends the spawned loop (for `connect`, the loop of the server), so `Manager.Accept` and `Manager.Connect` say nothing about announcements after one.
- SessionTheorems.FilesDelivered: is stated per payload id; `SessionFiles.DirectoryDelivered` says what this means by path.
- ChannelOrder.ReceiverInOrder: a delivery holds messages the other side sent and actions of the front end; that nobody else can make a message with a valid signature is a claim about HMAC and not made.
- SessionTheorems.RunsEnd: bounds runs in which nothing goes wrong; no bound is stated for those of `SessionDisruptions`.
- SessionDisruptions.EndsAnnounced: leaves out sides that end by an abort; `Aborts` says which messages cause one, and that these runs contain none is not stated.
- The cursor of a sent file advances with its accounting instead of with the read; the two differ only in a session that ends between them.
- Destinations are plain names in one directory; directories, path components inside a name and other writers are not modelled.
- File names that are not UTF-8 make the source abort while it builds the announcement; they are not modelled.
- The `Request` class stands for both requests, whose common fields and methods the source declares twice.
- `encryption_done` is set when a request is built and never cleared, so the clear-text variants of the disconnection and keep-alive frames are not modelled.
- Alerts carry their type and no numeric code; metadata fields that only the user interface shows are dropped.
- KeepAlive timing, the text of a Wi-Fi payload and how a text payload is opened are reduced to what decides the session's state.
- The cancellation token that stops the server, mDNS service and discovery, Bluetooth, settings, notifications and the user interface are not part of this model.
