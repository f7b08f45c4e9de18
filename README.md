# tx peer-to-peer call app: a Dafny model of its state logic

tx is a browser application for a one-to-one call over WebRTC. The two peers
swap session descriptions by hand (pasted text, a link or a QR code). Once the
data channel is open, they exchange JSON messages over it: chat lines,
reactions, edits, deletions, acknowledgements, typing and presence notices,
remote control commands, album metadata and files cut into 64 KiB chunks.
Everything the application does with those messages lives in one React
component (src/App.jsx). This project models the state that component keeps
and the handlers that change it. React, WebRTC and IndexedDB are reduced to
the few facts the handlers consult.

The modules follow the structure of the program:

- `Base` holds an optional value, bytes, JavaScript's `trim` and `includes`,
  `Math.round` of a quotient, and decimal rendering.
- `ChatLog` holds the chat entry and the pure log reducers: append, receive,
  and the patch-by-id updates (reaction, edit, delete, undo, ack). Each one
  carries an "only the matching entries change" contract.
- `Activity` holds the typing map, which decays on a timer read through an
  explicit clock, and the "online" note merged into the status line.
- `Transfer` holds the file-transfer data:
  - chunking (64 KiB slices) and the 100 MiB cap;
  - where a sending run stops;
  - the receiver's accumulator and completion test;
  - rounded progress;
  - the sender/receiver agreement.
- `Signaling` holds the guard logic for applying a remote session
  description, over an abstract signaling state.
- `Protocol` holds the message kinds on the data channel, and what each one
  does to the chat log, given the note a finished file transfer adds.
- `Peer` holds the class `Peer`, one per endpoint. Its fields are the
  component's state and refs:
  - the log and the undo queue;
  - the typing map;
  - the connection and channel states, and whether we are the answering side;
  - the transfers table;
  - the incoming and outgoing transfer queues;
  - the storage tables;
  - `sent`, the frames written to the channel.

  It has one method per handler. Each method's `modifies` clause names
  exactly the fields that handler changes. Its `ensures` ties the new state to
  the specification functions above, and the methods that touch the transfer
  tables keep the invariant `Valid()`. What `handleSignal` does is stated
  message type by message type by the two-state predicate `Handled`: one
  predicate per type, each naming every field that changes and saying that
  the others do not.

Inputs from the browser are explicit parameters:

- the clock (`Date.now()`);
- the random identifiers `uid()` returns;
- the file offsets at which a `FileReader` read fails;
- whether camera and microphone were granted;
- the descriptor that decoding pasted text produced.

Some behaviour the proofs make explicit:

- A zero-byte file is announced, but the receiver never completes it. The
  sender has no chunk to send, and only a chunk triggers the receiver's
  completion test (`Transfer.EmptyFileNeverCompletes`).
- A reaction delivered twice counts twice (`ChatLog.ReactionIsCounted`).
- The Cancel button in the transfers list changes only the row shown. A
  queued outgoing transfer stays queued (`Peer.Peer.CancelTransfer`).
- A file sent on `file-ready` is filed under the album that was active when
  the connection was set up, not the one active when it is sent: the channel
  handler created at setup keeps reading that album. A retry from the
  transfers list uses the album active at the time (`Peer.Peer.OnFileReady`,
  `Peer.Peer.RetryTransfer`).

## Model

| member | source | states |
|---|---|---|
| Base.TrimStart | src/App.jsx:310 | the part `trim` drops at the front is all whitespace, and what remains is a suffix of the input that does not start with whitespace |
| Base.TrimEnd | src/App.jsx:310 | the part `trim` drops at the end is all whitespace, and what remains is a prefix of the input that does not end with whitespace |
| Base.TrimEmptyIff | src/App.jsx:310 | a text is blank after `trim` exactly when every character is whitespace |
| Base.DecimalString | src/App.jsx:283 | a number is rendered as a non-empty string of digits with no leading zero |
| Base.DecimalRoundTrip | src/App.jsx:283 | reading the rendered digits back gives the number |
| Base.RoundDiv | src/App.jsx:283 | `Math.round(n/d)` is the integer nearest to n/d, with halves rounded up |
| ChatLog.PatchById | src/App.jsx:236-247 | the `m.map` patch changes exactly the entries whose id matches and keeps length and order |
| ChatLog.Receive | src/App.jsx:230 | an inbound chat appends exactly one entry, marked delivered, and keeps every earlier entry in place |
| ChatLog.Append | src/App.jsx:311-312 | a locally created entry is appended unchanged after the earlier ones |
| ChatLog.React | src/App.jsx:235-241 | the count for the symbol goes up by exactly 1 (from 0 when absent) on matching entries; every other count, field and entry is untouched |
| ChatLog.Edit | src/App.jsx:242-243 | matching entries get the new text and the edited mark; others are unchanged; ids, length and order are kept |
| ChatLog.Delete | src/App.jsx:244-245 | matching entries become tombstones; nothing is removed |
| ChatLog.Undelete | src/App.jsx:362 | matching entries lose the tombstone; others are unchanged |
| ChatLog.Acknowledge | src/App.jsx:246-247 | matching entries are marked delivered; others are unchanged |
| ChatLog.PatchUnknownIdIsNoOp | src/App.jsx:236-247 | a reaction, edit, delete or ack for an id that is not in the log leaves the log unchanged |
| ChatLog.FlagPatchesIdempotent | src/App.jsx:244-247 | ack, delete and undo applied twice equal applying them once |
| ChatLog.ReactionIsCounted | src/App.jsx:235-241 | the same reaction delivered twice counts twice |
| ChatLog.UndoRestoresLog | src/App.jsx:347-365 | delete followed by undo gives back the original log when the entries were not tombstones before |
| ChatLog.ReactionCountsMonotone | src/App.jsx:235-241 | under any stream of reactions, ids keep their positions and no count ever decreases |
| Activity.Seen | src/App.jsx:233 | a typing event stamps its user with the current time and leaves the other users alone |
| Activity.Expire | src/App.jsx:234 | the timer drops the user only when the last stamp is more than 1400 ms old; all other entries are kept |
| Activity.LastCheckEvicts | src/App.jsx:232-234 | the check scheduled by the latest event (1500 ms later) always removes the user |
| Activity.EarlyCheckKeeps | src/App.jsx:232-234 | a check at most 1400 ms after the latest event keeps the user, so decay counts from the last event |
| Activity.TwoEventsScenario | src/App.jsx:232-234 | with events at 0 and 1000 ms, the 1500 ms check keeps the user and the 2500 ms check removes it |
| Activity.Announce | src/App.jsx:248-249 | after a presence notice the status line is the old line followed by " · <user> online", unless it already mentioned the user, in which case it is unchanged; either way it mentions the user and begins with the old line |
| Activity.AnnounceIdempotent | src/App.jsx:248-249 | a repeated presence notice changes the status line only once |
| Transfer.Percent | src/App.jsx:264 | progress is the rounded percentage, at most 100 while bytes do not exceed the size, and exactly 100 at the size |
| Transfer.PercentBounds | src/App.jsx:497 | the nearest integer to 100·n/size lies in 0..100 for n ≤ size and equals 100 for n = size |
| Transfer.FlattenAppend | src/App.jsx:262 | concatenating chunk lists distributes over the bytes they hold |
| Transfer.ChunksUntil | src/App.jsx:501-503 | the slices read before a given stop are non-empty, hold at most 64 KiB each, and all but the last are full |
| Transfer.Chunks | src/App.jsx:501-503 | the slices from an offset are exactly the unsent bytes, in order, each non-empty and at most 64 KiB, all but the last full |
| Transfer.ChunksUntilEnd | src/App.jsx:501-512 | a run that reaches the end of the file reads exactly the full chunk plan |
| Transfer.ChunkSizesOf150000 | src/App.jsx:31 | a 150000-byte file is sent as chunks of 65536, 65536 and 18928 bytes |
| Transfer.SendRun | src/App.jsx:486-522 | a run starts at the stored offset and ends within the file; it fails exactly when it stops short of the end, with a read error only at a failing offset and a missing-channel error only without a channel; without a channel it stops at its start, so nothing is sent |
| Transfer.RunStopsAtFirstFailure | src/App.jsx:499-522 | a run stops at the end of the file or at a chunk boundary of its own, and no boundary before the stop is a failing read: it stops at the first failure |
| Transfer.RunStep | src/App.jsx:501-511 | sending one slice leaves the same stopping point ahead, and the plan is that slice followed by the rest |
| Transfer.SentBytesOfRun | src/App.jsx:491-512 | the chunks a run sends are exactly the file bytes between its start and where it stopped |
| Transfer.CleanRunCompletes | src/App.jsx:501-516 | with a channel present and no failing read ahead, a run sends the rest of the file and completes |
| Transfer.Fresh | src/App.jsx:253 | `file-meta` starts an accumulator with no bytes and no chunks under the announced meta and album |
| Transfer.Accept | src/App.jsx:262-263 | a chunk is appended to the buffers, and the byte count grows by its length and stays equal to the buffered total |
| Transfer.DeliveryCompletesExactly | src/App.jsx:257-284 | non-empty chunks covering exactly the missing bytes complete the transfer on the last chunk, with the bytes assembled in order and nothing left over |
| Transfer.SenderAndReceiverAgree | src/App.jsx:250-284 | the sender's chunk plan, delivered in order after the matching `file-meta`, completes the receiver with exactly the file's bytes |
| Transfer.EmptyFileNeverCompletes | src/App.jsx:257-267 | a zero-byte file produces no chunk, so the receiver's transfer stays pending |
| Signaling.RemoteStep | src/App.jsx:201-222 | an answer is applied iff our offer is pending, and is otherwise refused with the connection unchanged; an offer is answered iff a connection exists or one can be created; a refusal leaves the connection as it was; success leaves it stable |
| Signaling.AnswerOnlyOnce | src/App.jsx:209-218 | an answer to our pending offer is applied and leaves us stable; a second answer, or an answer with no connection at all, is refused |
| Protocol.Truthy | src/App.jsx:253 | `x \|\| null` keeps a non-empty string and maps the empty string and absence to absence |
| Protocol.ReduceLog | src/App.jsx:225-300 | a message either clears the log (`clear-chat`), appends one entry (`chat`, or a file message that finishes a transfer, whose note is appended) or keeps the length; earlier ids stay in place; every other message leaves the log alone |
| Protocol.LogIsAppendOnly | src/App.jsx:225-300 | short of `clear-chat`, any message stream only appends, one entry per `chat` and per finished transfer, and never moves earlier entries |
| Protocol.ChatAckRoundTrip | src/App.jsx:229-231 | after our chat is received and its ack handled, both peers hold the same entry, marked delivered |
| Protocol.ChunkFrames | src/App.jsx:493-494 | one `file-chunk` frame per chunk, in order |
| Protocol.ChunkFramesAppend | src/App.jsx:493-494 | one more chunk adds exactly one more frame at the end |
| Peer.Peer.constructor | src/App.jsx:34-69 | a fresh endpoint: not connected, no connection, channel or answering role, empty log, queues and tables |
| Peer.Peer.SendSignal | src/App.jsx:302-306 | a frame is written iff the channel is open; otherwise it is dropped |
| Peer.Peer.SendMessage | src/App.jsx:309-315 | blank text or a channel that is not open changes nothing; otherwise the trimmed text is appended as our undelivered entry (sender "me" when unnamed) and sent as `chat` |
| Peer.Peer.SendTyping | src/App.jsx:317-322 | a typing notice under our name is sent only while the channel is open |
| Peer.Peer.SendControl | src/App.jsx:384 | a control command is sent only while the channel is open |
| Peer.Peer.SendReaction | src/App.jsx:324-333 | the local log gets the same reaction update as a received one, and the frame is sent when possible |
| Peer.Peer.SaveEdit | src/App.jsx:339-345 | an empty edit changes nothing; otherwise the log gets the same edit as a received one and `edit` is sent |
| Peer.Peer.SoftDelete | src/App.jsx:347-357 | the entry becomes a tombstone, `delete` is sent, and the id enters the undo queue |
| Peer.Peer.UndoWindowElapsed | src/App.jsx:351-355 | after six seconds the id leaves the undo queue |
| Peer.Peer.UndoDelete | src/App.jsx:358-365 | only an id in the undo queue is restored and leaves the queue; the peer is not told; any other id changes nothing |
| Peer.Peer.OnFrame | src/App.jsx:161-168 | a frame that is not JSON becomes a delivered line from "peer" and nothing else changes; a JSON frame has the effect `Handled` gives its type (an unknown type changes nothing), and the log becomes ReduceLog's with the note of a transfer it finishes |
| Peer.Peer.HandleSignal | src/App.jsx:225-300 | per type (`Handled`): log messages follow ReduceLog, `chat` sends its ack and `control` flips mute or camera; `typing` changes only the typing map, `presence` only the status line; the file messages as OnFileMeta, OnFileChunk and OnFileReady; `album-sync` only the album table; an unknown type nothing. The log is ReduceLog's with the completion note, and `Valid()` is kept |
| Peer.Peer.OnLogMessage | src/App.jsx:229-247 | the log becomes ReduceLog's; only `chat` sends something (its ack), only `control` "mute" and "video-off" flip mute or camera; nothing else changes |
| Peer.Peer.OnSideMessage | src/App.jsx:232-292 | `typing` changes only the typing map (Seen), `presence` only the status line (Announce), `album-sync` only the album table; an unknown type changes nothing |
| Peer.Peer.OnFileMessage | src/App.jsx:250-288 | `file-meta`, `file-chunk` and `file-ready` have their handlers' effects and keep `Valid()`; the log gains exactly the note of a transfer the message finishes |
| Peer.Peer.OnChat | src/App.jsx:229-231 | the entry is received (appended as delivered) and an `ack` with its id is sent |
| Peer.Peer.OnTyping | src/App.jsx:232-233 | the typing map becomes Seen's |
| Peer.Peer.OnPresence | src/App.jsx:248-249 | the status line becomes Announce's |
| Peer.Peer.TypingTimerFired | src/App.jsx:234 | the typing map becomes Expire's at the firing time |
| Peer.Peer.OnControl | src/App.jsx:293-299 | "mute" toggles mute, "video-off" toggles the camera, "clear-chat" empties the log; anything else is ignored |
| Peer.Peer.OnAlbumSync | src/App.jsx:289-292 | the album is stored under its id, stamped with the current time when it has none |
| Peer.Stamped | src/db.js:101-108 | a saved album keeps its id, name and owner, and its time unless it has none, in which case it gets the time of saving |
| Peer.Peer.AlbumFiles | src/db.js:166-180 | the files of an album are exactly the stored records filed under its id |
| Peer.Peer.ShareAlbum | src/App.jsx:630 | the album becomes the active one and is sent as `album-sync` when the channel is open |
| Peer.Peer.CreateAlbum | src/App.jsx:535-542 | a new album of ours, named by the prompt or "Album" and an id, is saved under `alb_` and an id, made active and shared |
| Peer.Peer.OpenAlbum | src/App.jsx:545-549 | the album becomes the active one and a note counting its stored files is appended |
| Peer.Peer.SendFile | src/App.jsx:475-484 | with the channel not open or a file over 100 MiB nothing is queued or sent; otherwise exactly one transfer is queued at offset 0, waiting, and announced by one `file-meta` |
| Peer.Peer.SendPendingChunks | src/App.jsx:486-522 | an unknown id changes nothing; otherwise (RunEnded) exactly the chunks up to where SendRun stops are sent and only this transfer's row changes. On success the row is done at 100, the metadata is stored under the album the caller reads, the queue entry is removed and a note is added; on failure the row is in error with the cause, and the entry stays queued at the offset reached |
| Peer.Peer.OnFileReady | src/App.jsx:285-288 | a queued transfer is sent as SendPendingChunks says, filed under the album that was active when the connection was set up (the channel handler's own album); an unknown id changes nothing; the receiving side, the controls and the activity are untouched |
| Peer.Peer.MarkFailed | src/App.jsx:518-521 | the row keeps its other fields and is in state error with the cause |
| Peer.Peer.SendChunks | src/App.jsx:499-512 | the loop stops where SendRun says, having sent exactly the ChunksUntil slices, and records the offset reached |
| Peer.Peer.SendChunk | src/App.jsx:492-499 | one slice is sent; the stored offset moves strictly forward to the slice end; the row is sending with the rounded progress and keeps its meta |
| Peer.Peer.FinishSend | src/App.jsx:513-517 | the row is done at 100, the metadata is stored under the album the calling handler reads, the queue entry is removed and a "Sent file" note is added |
| Peer.Peer.RetryTransfer | src/App.jsx:566-573 | a queued transfer resumes from its offset with the outcome RunEnded gives, filed under the album active now; any other id only gets an error row, and nothing is sent |
| Peer.Peer.CancelTransfer | src/App.jsx:770 | only the row's state becomes cancelled |
| Peer.Peer.OnFileMeta | src/App.jsx:250-256 | a fresh accumulator and a receiving row at 0 replace any earlier ones under that id, `file-ready` is sent back, and nothing else changes |
| Peer.Peer.OnFileChunk | src/App.jsx:257-284 | an unknown transfer changes nothing; otherwise the byte count grows by the chunk length and the bytes are appended; below the size only the accumulator and the progress change; at the size the file is stored; nothing is sent and the sending side is untouched |
| Peer.Peer.StoreReceivedFile | src/App.jsx:266-283 | on completion the row is done at 100 with the file id, the accumulator is dropped (later chunks are ignored) and a note with the size in KB is added |
| Peer.Peer.SaveReceivedFile | src/App.jsx:268-278 | the assembled bytes are stored under a fresh id, filed in the transfer's album or in a new "Shared Album" |
| Peer.Peer.CreateConnection | src/App.jsx:173-184 | nothing happens while a connection exists or without media; otherwise our offer is pending, the channel is connecting, and its handlers keep the album active at this moment |
| Peer.Peer.SetupAnswerer | src/App.jsx:187-198 | nothing happens while a connection exists or without media; otherwise a stable connection exists, we are the answering side, and the channel handlers it installs keep the album active at this moment |
| Peer.Peer.HandleRemoteSDP | src/App.jsx:201-222 | blank input is ignored; undecodable input is refused; otherwise the outcome and the new connection state are RemoteStep's, an offer with no connection makes us the answering side (keeping the active album for its channel) when media is granted, and the status line reports an answer sent or a remote description set |
| Peer.Peer.OnDataChannel | src/App.jsx:193-196 | only the answering side receives the peer's channel, still connecting; a caller's channel is left as it is |
| Peer.Peer.OnChannelOpen | src/App.jsx:156-160 | connected, with the status line set, and presence announced under our name |
| Peer.Peer.OnChannelClose | src/App.jsx:169 | not connected, with the status line set |
| Peer.Peer.EndCall | src/App.jsx:386-395 | connection, channel and answering role are gone, not connected, status "Call ended", whatever the state before |

## Left out

- Rendering, themes, settings, editing-box state and pinning are UI only.
- Media capture, ICE handling, screen share, track replacement and statistics
  are browser facilities, and so is the CPU benchmark. The model keeps only
  whether the connection and channel exist, their `signalingState` and
  `readyState`, and whether camera and microphone were granted.
- The descriptor codec is not modelled. `compress` and `decompress` are
  DEFLATE in zlib format (RFC 1950, RFC 1951) plus base64 (section 4 of RFC
  4648). The model receives the outcome of decoding as an input: the
  descriptor, or none when fetching, inflating or parsing threw. No
  round-trip of that codec is stated.
- Chunks travel as bytes. Their base64 encoding inside the JSON frame is not
  modelled, and neither is JSON serialisation.
- The relay upload and fetch of descriptors, and QR scanning, are network and
  device I/O.
- The `bufferedAmount` back-pressure wait is treated as a step that returns
  at once. Only its effect of throwing when the channel reference is gone is
  kept (`ChannelGone`).
- Interleaving at `await` points is not modelled. Each handler runs to
  completion in the model, so two sending runs for the same transfer, or
  chunks arriving during a storage write, are not explored.
- Timers are events with an explicit time: the typing check and the undo
  window.
- Storage (src/db.js) is modelled as three maps written by the handlers:
  files, blobs and albums. Storage failures are not modelled. Neither are
  `saveCall` and `saveChat` (run by `endCall` and a 10-second autosave) nor
  loading history at start-up.
- Peer.Peer.HandleRemoteSDP: the application itself only produces `offer`
  and `answer` descriptors, so the model refuses every other type. A browser
  holding a local offer would accept a pasted `pranswer` or `rollback`, and
  the source would then report "Remote SDP set."; that path is not
  modelled. An offer arriving while our own offer is pending is taken to be
  rolled back implicitly and answered, as the browser does.
- Peer.Peer.OnChannelOpen: presence is announced under the current
  username. The source's channel handlers are created at connection setup
  and read the username of that moment, so a name edited during the call is
  not announced; only the album those handlers read is modelled
  (`setupAlbum`).
- Transfer.Percent: progress is computed in exact integers. The source
  divides in floating point before multiplying by 100, which can round a
  value lying just at a half the other way. For an empty file it gives 100,
  where the source would give `Infinity`, which is only a transient there.
- Peer.Peer.SendPendingChunks: the error row keeps the error's cause, not the
  text of the JavaScript error message.
- Peer.Peer.StoreReceivedFile: the three fresh identifiers the source draws
  come from one `uid` per event: the file id, the note id and the suffix of
  the new album's id. The source would draw three different random strings.
- Peer.Peer.OnFileChunk: the owner of a new shared album is "peer". The
  `albumId` and `from` fields a `file-chunk` payload could carry are never
  sent by the application, and are not modelled.
- Sending typing notices throttles itself with a timer that does nothing,
  so only the send is kept. Reloading the album list (`reloadAlbums`) only
  refreshes what is shown: the model's album table is the stored one.
- Peer.Peer.CreateAlbum: the name prompt is an input (`answer`, "" when
  cancelled), and so are the two random identifiers it draws.
- The random ticker (src/Tx.jsx) and the build configuration are not part of
  this model.
