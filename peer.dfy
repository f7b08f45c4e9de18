/** One endpoint of a call: the refs and state of the application component
    (src/App.jsx) that its handlers update, with one method per handler.
    Each method's frame names exactly the fields the handler changes, so
    every other field is unchanged by construction. Browser objects are
    reduced to what the handlers consult: whether the peer connection and
    data channel exist, `signalingState` and `readyState`. Frames written to
    the channel are collected in `sent`. */
module Peer {
  import opened Base
  import ChatLog
  import opened Transfer
  import opened Signaling
  import Activity
  import opened Protocol

  const STATUS_INITIAL: string := "Not connected"
  const STATUS_CONNECTED: string := "✅ Connected!"
  const STATUS_CHANNEL_CLOSED: string := "📴 Data channel closed"
  const STATUS_CALL_ENDED: string := "📴 Call ended"
  const STATUS_ANSWER_SENT: string := "📡 Answer sent."
  const STATUS_REMOTE_SET: string := "✅ Remote SDP set."

  /** What the browser supplies to one event handler: the clock
      (`Date.now()`), the random identifier `uid()` returns, and the file
      offsets at which `FileReader` reports an error. */
  datatype Env = Env(now: int, uid: string, readFailsAt: set<nat>)

  /** A row of the storage collaborator's file table. */
  datatype FileRecord = FileRecord(name: string, mime: string, size: nat, albumId: Option<string>)

  /** How `sendFile` ended: queued under a transfer id, or refused with the
      "Data channel not open" or "Max file size 100MB" alert. */
  datatype SendFileOutcome = Queued(transferId: string) | ChannelNotOpen | TooLarge

  function SystemNote(id: string, now: int, text: string): ChatLog.Entry {
    ChatLog.Entry(id, "system", ChatLog.System, text, now, false, false, false, map[])
  }

  /** The note added when a file has been received completely. */
  function ReceivedNote(meta: Meta, id: string, now: int): ChatLog.Entry {
    SystemNote(id, now, RECEIVED_PREFIX + meta.name + "\" (" + DecimalString(RoundDiv(meta.size, 1024)) + RECEIVED_SUFFIX)
  }

  const RECEIVED_PREFIX: string := "Received file \""
  const RECEIVED_SUFFIX: string := " KB). Click download in Transfers to save."

  /** The note added when a file has been sent completely. */
  function SentNote(name: string, id: string, now: int): ChatLog.Entry {
    SystemNote(id, now, "Sent file \"" + name + "\"")
  }

  /** An album as the storage collaborator keeps it: stamped with the time
      of saving when it carries no time of its own. */
  function Stamped(album: Album, now: int): (r: Album)
    ensures r.id == album.id && r.name == album.name && r.owner == album.owner
    ensures r.ts == (if album.ts == 0 then now else album.ts)
  {
    if album.ts == 0 then album.(ts := now) else album
  }

  /** The note `openAlbum` adds. */
  function OpenedNote(count: nat, id: string, now: int): ChatLog.Entry {
    SystemNote(id, now, "Opened album with " + DecimalString(count) + " files")
  }

  /** A non-JSON frame, kept as a chat line from the peer. */
  function PlainTextEntry(data: string, id: string, now: int): ChatLog.Entry {
    ChatLog.Entry(id, "peer", ChatLog.Text, data, now, true, false, false, map[])
  }

  class Peer {
    var username: string
    var status: string
    var connected: bool
    var muted: bool
    var videoOn: bool
    var activeAlbum: Option<string>
    /** The active album when the connection was set up. The channel's
        message handler is created then (`setupDataChannel`, directly or
        from `ondatachannel`) and keeps reading the album of that moment, so
        a transfer sent on `file-ready` is filed under this one. */
    var setupAlbum: Option<string>
    var messages: seq<ChatLog.Entry>
    /** Ids of tombstoned entries whose undo window is still open. */
    var undoQueue: set<string>
    /** Username to the time of its last `typing` event. */
    var typingUsers: map<string, int>
    /** The peer connection (`pc`), by its signaling state. */
    var link: Option<SigState>
    /** Whether the connection was made by `setupAnswerer`, the only one
        that waits for the peer's data channel (`pc.ondatachannel`). */
    var answering: bool
    /** The data channel (`dc`), by its ready state. */
    var channel: Option<ChannelState>
    /** Every frame written to the data channel, in order. */
    var sent: seq<Message>
    var transfers: map<string, Status>
    /** `incomingFileBuffers`. */
    var incoming: map<string, Incoming>
    /** `outgoingFileQueue`. */
    var outgoing: map<string, Outgoing>
    /** The storage collaborator's file metadata, blobs and albums. */
    var fileRecords: map<string, FileRecord>
    var blobs: map<string, seq<byte>>
    var albums: map<string, Album>

    /** A channel, and the answering role, only exist alongside a
        connection; every live transfer
        has a row in the transfers table; a receiving transfer's byte count
        is the length of its buffered chunks and has not reached the size
        (an empty file never gets a chunk); a sending transfer's offset lies
        within its file, whose announced size is its length. */
    ghost predicate Valid()
      reads this`channel, this`link, this`answering, this`incoming, this`outgoing, this`transfers
    {
      LinkValid() && IncomingValid() && OutgoingValid()
    }

    ghost predicate LinkValid()
      reads this`channel, this`link, this`answering
    {
      (channel.Some? || answering) ==> link.Some?
    }

    ghost predicate IncomingValid()
      reads this`incoming, this`transfers
    {
      && incoming.Keys <= transfers.Keys
      && forall t :: t in incoming ==>
           Consistent(incoming[t]) && (incoming[t].received < incoming[t].meta.size || incoming[t].received == 0)
    }

    ghost predicate OutgoingValid()
      reads this`outgoing, this`transfers
    {
      && outgoing.Keys <= transfers.Keys
      && forall t :: t in outgoing ==>
           outgoing[t].offset <= |outgoing[t].file.data| && outgoing[t].meta.size == |outgoing[t].file.data|
    }

    constructor (name: string)
      ensures Valid()
      ensures username == name && status == STATUS_INITIAL && !connected && !muted && videoOn
      ensures activeAlbum.None? && setupAlbum.None? && messages == [] && undoQueue == {} && typingUsers == map[]
      ensures link.None? && !answering && channel.None? && sent == []
      ensures transfers == map[] && incoming == map[] && outgoing == map[]
      ensures fileRecords == map[] && blobs == map[] && albums == map[]
    {
      username, status, connected, muted, videoOn := name, STATUS_INITIAL, false, false, true;
      activeAlbum, setupAlbum, messages, undoQueue, typingUsers := None, None, [], {}, map[];
      link, answering, channel, sent := None, false, None, [];
      transfers, incoming, outgoing := map[], map[], map[];
      fileRecords, blobs, albums := map[], map[], map[];
    }

    predicate ChannelOpen()
      reads this`channel
    {
      channel == Some(Open)
    }

    /** `t[transferId] || {}`. */
    function StatusOf(transferId: string): Status
      reads this`transfers
    {
      if transferId in transfers then transfers[transferId] else Blank
    }

    /** The entry `sendMessage` creates for `text`. */
    function OwnEntry(text: string, env: Env): ChatLog.Entry
      reads this`username
    {
      ChatLog.Entry(env.uid, if username == "" then "me" else username, ChatLog.Text, Trim(text), env.now,
                    false, false, false, map[])
    }

    // ---------------------------------------------------------------- sending

    /** `sendSignal`: a frame is written only while the channel is open and
        is otherwise dropped without notice. */
    method SendSignal(m: Message)
      modifies this`sent
      ensures sent == old(sent) + (if ChannelOpen() then [m] else [])
    {
      if ChannelOpen() {
        sent := sent + [m];
      }
    }

    /** `sendMessage`: nothing happens for blank text or a channel that is
        not open; otherwise the trimmed text is appended as an undelivered
        entry of ours and sent as `chat`. */
    method SendMessage(text: string, env: Env)
      modifies this`messages, this`sent
      ensures Trim(text) != [] && ChannelOpen() ==>
        messages == ChatLog.Append(old(messages), OwnEntry(text, env)) && sent == old(sent) + [Chat(OwnEntry(text, env))]
      ensures Trim(text) == [] || !ChannelOpen() ==> messages == old(messages) && sent == old(sent)
    {
      if Trim(text) == [] || !ChannelOpen() {
        return;
      }
      var e := OwnEntry(text, env);
      messages := ChatLog.Append(messages, e);
      SendSignal(Chat(e));
    }

    /** `sendTyping`: a typing notice under our name, only while the
        channel is open. */
    method SendTyping()
      modifies this`sent
      ensures sent == old(sent) + (if ChannelOpen() then [Typing(username)] else [])
    {
      if !ChannelOpen() {
        return;
      }
      SendSignal(Typing(username));
    }

    /** `sendControl`: ask the peer to run a command (OnControl there). */
    method SendControl(cmd: string)
      modifies this`sent
      ensures sent == old(sent) + (if ChannelOpen() then [Control(cmd)] else [])
    {
      SendSignal(Control(cmd));
    }

    /** `sendReaction`: the local count goes up at once, whether or not the
        frame can be sent. */
    method SendReaction(id: string, symbol: string)
      modifies this`messages, this`sent
      ensures messages == ChatLog.React(old(messages), id, symbol)
      ensures sent == old(sent) + (if ChannelOpen() then [Reaction(id, symbol)] else [])
    {
      messages := ChatLog.React(messages, id, symbol);
      SendSignal(Reaction(id, symbol));
    }

    /** `saveEdit`: an empty edit text only closes the editor. */
    method SaveEdit(id: string, text: string)
      modifies this`messages, this`sent
      ensures text == "" ==> messages == old(messages) && sent == old(sent)
      ensures text != "" ==> messages == ChatLog.Edit(old(messages), id, text)
      ensures text != "" ==> sent == old(sent) + (if ChannelOpen() then [Edit(id, text)] else [])
    {
      if text == "" {
        return;
      }
      messages := ChatLog.Edit(messages, id, text);
      SendSignal(Edit(id, text));
    }

    /** `softDelete`: tombstone, tell the peer, and open the undo window. */
    method SoftDelete(id: string)
      modifies this`messages, this`sent, this`undoQueue
      ensures messages == ChatLog.Delete(old(messages), id)
      ensures sent == old(sent) + (if ChannelOpen() then [Delete(id)] else [])
      ensures undoQueue == old(undoQueue) + {id}
    {
      messages := ChatLog.Delete(messages, id);
      SendSignal(Delete(id));
      undoQueue := undoQueue + {id};
    }

    /** The six-second timer set by `softDelete` closes the undo window. */
    method UndoWindowElapsed(id: string)
      modifies this`undoQueue
      ensures undoQueue == old(undoQueue) - {id}
    {
      undoQueue := undoQueue - {id};
    }

    /** `undoDelete`: only an id whose undo window is open is restored (and
        leaves the queue); the peer is not told. Any other id changes
        nothing. */
    method UndoDelete(id: string)
      modifies this`messages, this`undoQueue
      ensures id in old(undoQueue) ==>
        undoQueue == old(undoQueue) - {id} && messages == ChatLog.Undelete(old(messages), id)
      ensures id !in old(undoQueue) ==> undoQueue == old(undoQueue) && messages == old(messages)
    {
      if id in undoQueue {
        undoQueue := undoQueue - {id};
        messages := ChatLog.Undelete(messages, id);
      }
    }

    // -------------------------------------------------------------- receiving

    /** `channel.onmessage`: a frame that is not JSON becomes a delivered
        chat line from "peer"; a JSON frame goes to `handleSignal`. */
    method OnFrame(frame: Frame, env: Env)
      requires Valid()
      modifies this`messages, this`sent, this`typingUsers, this`status, this`incoming, this`transfers,
               this`outgoing, this`fileRecords, this`blobs, this`albums, this`muted, this`videoOn
      ensures Valid()
      ensures frame.PlainText? ==>
        messages == ChatLog.Append(old(messages), PlainTextEntry(frame.data, env.uid, env.now)) && Quiet()
      ensures frame.Json? ==> Handled(frame.msg, env)
      ensures frame.Json? ==> messages == ReduceLog(old(messages), frame.msg, old(CompletionNote(frame.msg, env)))
    {
      match frame
      case PlainText(data) =>
        messages := ChatLog.Append(messages, PlainTextEntry(data, env.uid, env.now));
      case Json(msg) =>
        HandleSignal(msg, env);
    }

    /** The note that handling `msg` adds to the chat by finishing a file
        transfer, judged on the state before it: a `file-chunk` that brings
        a known receipt to its size, or a `file-ready` whose sending run
        reaches the end of the file. None for every other message. */
    ghost function CompletionNote(msg: Message, env: Env): Option<ChatLog.Entry>
      reads this`incoming, this`outgoing, this`channel
    {
      match msg
      case FileChunk(transferId, chunk) =>
        if transferId in incoming && Complete(Accept(incoming[transferId], chunk))
        then Some(ReceivedNote(incoming[transferId].meta, env.uid, env.now))
        else None
      case FileReady(transferId) =>
        if && transferId in outgoing
           && outgoing[transferId].offset <= |outgoing[transferId].file.data|
           && SendRun(outgoing[transferId].file.data, outgoing[transferId].offset, env.readFailsAt, channel.Some?).1.None?
        then Some(SentNote(outgoing[transferId].file.name, env.uid, env.now))
        else None
      case _ => None
    }

    /** What `handleSignal` does, message type by message type (one
        predicate each, below). */
    twostate predicate Handled(msg: Message, env: Env)
      reads this
    {
      && (IsLogMessage(msg) ==> Logged(msg))
      && (msg.Typing? ==> Typed(msg.username, env.now))
      && (msg.Presence? ==> Announced(msg.username))
      && (msg.FileMeta? ==> MetaTaken(msg.transferId, msg.meta, msg.albumId))
      && (msg.FileChunk? ==> ChunkTaken(msg.transferId, msg.chunk, env))
      && (msg.FileReady? ==> ReadyTaken(msg.transferId, env))
      && (msg.AlbumSync? ==> AlbumTaken(msg.album, env.now))
      && (msg.Unrecognized? ==> messages == old(messages) && Quiet())
    }

    /** Nothing but the chat log changes, and nothing is sent. */
    twostate predicate Quiet()
      reads this
    {
      && sent == old(sent) && muted == old(muted) && videoOn == old(videoOn)
      && typingUsers == old(typingUsers) && status == old(status)
      && incoming == old(incoming) && transfers == old(transfers) && outgoing == old(outgoing)
      && fileRecords == old(fileRecords) && blobs == old(blobs) && albums == old(albums)
    }

    /** The types that only touch the chat log follow ReduceLog; besides, a
        `chat` sends back the ack of its id and a `control` flips mute or
        camera on "mute" and "video-off". Nothing else changes. */
    twostate predicate Logged(msg: Message)
      reads this
    {
      && messages == ReduceLog(old(messages), msg, None)
      && sent == old(sent) + (if msg.Chat? && ChannelOpen() then [Ack(msg.entry.id)] else [])
      && muted == (if msg == Control("mute") then !old(muted) else old(muted))
      && videoOn == (if msg == Control("video-off") then !old(videoOn) else old(videoOn))
      && typingUsers == old(typingUsers) && status == old(status)
      && incoming == old(incoming) && transfers == old(transfers) && outgoing == old(outgoing)
      && fileRecords == old(fileRecords) && blobs == old(blobs) && albums == old(albums)
    }

    /** `typing`: only the typing map changes (Activity.Seen). */
    twostate predicate Typed(user: string, now: int)
      reads this
    {
      && typingUsers == Activity.Seen(old(typingUsers), user, now)
      && messages == old(messages) && sent == old(sent) && muted == old(muted) && videoOn == old(videoOn)
      && status == old(status)
      && incoming == old(incoming) && transfers == old(transfers) && outgoing == old(outgoing)
      && fileRecords == old(fileRecords) && blobs == old(blobs) && albums == old(albums)
    }

    /** `presence`: only the status line changes (Activity.Announce). */
    twostate predicate Announced(user: string)
      reads this
    {
      && status == Activity.Announce(old(status), user)
      && messages == old(messages) && sent == old(sent) && muted == old(muted) && videoOn == old(videoOn)
      && typingUsers == old(typingUsers)
      && incoming == old(incoming) && transfers == old(transfers) && outgoing == old(outgoing)
      && fileRecords == old(fileRecords) && blobs == old(blobs) && albums == old(albums)
    }

    /** `album-sync`: only the album table changes; the album is stored
        under its id, stamped with the current time when it carries none. */
    twostate predicate AlbumTaken(album: Album, now: int)
      reads this
    {
      && albums == old(albums)[album.id := Stamped(album, now)]
      && messages == old(messages) && sent == old(sent) && muted == old(muted) && videoOn == old(videoOn)
      && typingUsers == old(typingUsers) && status == old(status)
      && incoming == old(incoming) && transfers == old(transfers) && outgoing == old(outgoing)
      && fileRecords == old(fileRecords) && blobs == old(blobs)
    }

    /** `handleSignal`: dispatch on the message type (see Handled). On the
        chat log this is ReduceLog, with the note of a transfer the message
        finishes. */
    method HandleSignal(msg: Message, env: Env)
      requires Valid()
      modifies this`messages, this`sent, this`typingUsers, this`status, this`incoming, this`transfers,
               this`outgoing, this`fileRecords, this`blobs, this`albums, this`muted, this`videoOn
      ensures Valid()
      ensures Handled(msg, env)
      ensures messages == ReduceLog(old(messages), msg, old(CompletionNote(msg, env)))
    {
      if IsLogMessage(msg) {
        OnLogMessage(msg);
      } else if IsFileMessage(msg) {
        OnFileMessage(msg, env);
      } else {
        OnSideMessage(msg, env);
      }
    }

    /** The types whose handling is a chat-log update, plus the ack a
        `chat` sends back and the mute and camera toggles of `control`. */
    method OnLogMessage(msg: Message)
      requires IsLogMessage(msg)
      modifies this`messages, this`sent, this`muted, this`videoOn
      ensures Logged(msg)
    {
      match msg
      case Chat(e) => OnChat(e);
      case Reaction(id, symbol) => messages := ChatLog.React(messages, id, symbol);
      case Edit(id, text) => messages := ChatLog.Edit(messages, id, text);
      case Delete(id) => messages := ChatLog.Delete(messages, id);
      case Ack(id) => messages := ChatLog.Acknowledge(messages, id);
      case Control(cmd) => OnControl(cmd);
    }

    /** The file-transfer types: `file-meta`, `file-chunk`, `file-ready`. */
    method OnFileMessage(msg: Message, env: Env)
      requires Valid() && IsFileMessage(msg)
      modifies this`messages, this`sent, this`incoming, this`transfers, this`outgoing, this`fileRecords,
               this`blobs, this`albums
      ensures Valid()
      ensures Handled(msg, env)
      ensures messages == ReduceLog(old(messages), msg, old(CompletionNote(msg, env)))
    {
      match msg
      case FileMeta(transferId, meta, albumId) => OnFileMeta(transferId, meta, albumId, env);
      case FileChunk(transferId, chunk) => OnFileChunk(transferId, chunk, env);
      case FileReady(transferId) => OnFileReady(transferId, env);
    }

    /** The remaining types: typing and presence notices, album sharing,
        and unknown types, which are ignored. */
    method OnSideMessage(msg: Message, env: Env)
      requires !IsLogMessage(msg) && !IsFileMessage(msg)
      modifies this`typingUsers, this`status, this`albums
      ensures Handled(msg, env)
    {
      match msg
      case Typing(user) => OnTyping(user, env.now);
      case Presence(user) => OnPresence(user);
      case AlbumSync(album) => OnAlbumSync(album, env.now);
      case Unrecognized(_) =>
    }

    /** Inbound `chat`: append it as delivered and acknowledge its id. */
    method OnChat(e: ChatLog.Entry)
      modifies this`messages, this`sent
      ensures messages == ChatLog.Receive(old(messages), e)
      ensures sent == old(sent) + (if ChannelOpen() then [Ack(e.id)] else [])
    {
      messages := ChatLog.Receive(messages, e);
      SendSignal(Ack(e.id));
    }

    /** Inbound `typing`: stamp the user with the current time; the decay
        timer it sets is TypingTimerFired. */
    method OnTyping(user: string, now: int)
      modifies this`typingUsers
      ensures typingUsers == Activity.Seen(old(typingUsers), user, now)
    {
      typingUsers := Activity.Seen(typingUsers, user, now);
    }

    /** Inbound `presence`: the status line announces the user once. */
    method OnPresence(user: string)
      modifies this`status
      ensures status == Activity.Announce(old(status), user)
    {
      status := Activity.Announce(status, user);
    }

    /** The 1.5-second timer set by a `typing` event, firing at `now`. */
    method TypingTimerFired(user: string, now: int)
      modifies this`typingUsers
      ensures typingUsers == Activity.Expire(old(typingUsers), user, now)
    {
      typingUsers := Activity.Expire(typingUsers, user, now);
    }

    /** Inbound `control`: the peer's mute, camera and clear-chat commands;
        any other command is ignored. */
    method OnControl(cmd: string)
      modifies this`muted, this`videoOn, this`messages
      ensures muted == (if cmd == "mute" then !old(muted) else old(muted))
      ensures videoOn == (if cmd == "video-off" then !old(videoOn) else old(videoOn))
      ensures messages == (if cmd == "clear-chat" then [] else old(messages))
    {
      if cmd == "mute" {
        muted := !muted;
      }
      if cmd == "video-off" {
        videoOn := !videoOn;
      }
      if cmd == "clear-chat" {
        messages := [];
      }
    }

    /** Inbound `album-sync`: the album is stored under its id, stamped with
        the current time when it carries none. */
    method OnAlbumSync(album: Album, now: int)
      modifies this`albums
      ensures albums == old(albums)[album.id := Stamped(album, now)]
    {
      albums := albums[album.id := Stamped(album, now)];
    }

    /** The files filed under an album (`getFilesForAlbum`). */
    function AlbumFiles(albumId: string): (r: set<string>)
      reads this`fileRecords
      ensures forall id :: id in r <==> id in fileRecords && fileRecords[id].albumId == Some(albumId)
    {
      set id | id in fileRecords && fileRecords[id].albumId == Some(albumId)
    }

    /** The Share button: the album becomes the active one (where files
        sent from now on are filed) and is sent as `album-sync`. */
    method ShareAlbum(album: Album)
      modifies this`activeAlbum, this`sent
      ensures activeAlbum == Some(album.id)
      ensures sent == old(sent) + (if ChannelOpen() then [AlbumSync(album)] else [])
    {
      activeAlbum := Some(album.id);
      SendSignal(AlbumSync(album));
    }

    /** `createAlbum`: `answer` is what the name prompt returned ("" when it
        was cancelled or left empty) and `nameId` the identifier drawn for
        the default name. The album is ours, stamped now, saved, made
        active and shared. */
    method CreateAlbum(answer: string, nameId: string, env: Env) returns (album: Album)
      modifies this`albums, this`activeAlbum, this`sent
      ensures album == Album("alb_" + env.uid, if answer == "" then "Album " + nameId else answer, username, env.now)
      ensures albums == old(albums)[album.id := Stamped(album, env.now)]
      ensures activeAlbum == Some(album.id)
      ensures sent == old(sent) + (if ChannelOpen() then [AlbumSync(album)] else [])
    {
      album := Album("alb_" + env.uid, if answer == "" then "Album " + nameId else answer, username, env.now);
      albums := albums[album.id := Stamped(album, env.now)];
      ShareAlbum(album);
    }

    /** `openAlbum`: the album becomes the active one and a note in the chat
        counts its files. */
    method OpenAlbum(albumId: string, env: Env)
      modifies this`activeAlbum, this`messages
      ensures activeAlbum == Some(albumId)
      ensures messages == ChatLog.Append(old(messages), OpenedNote(|old(AlbumFiles(albumId))|, env.uid, env.now))
    {
      activeAlbum := Some(albumId);
      var files := AlbumFiles(albumId);
      messages := ChatLog.Append(messages, OpenedNote(|files|, env.uid, env.now));
    }

    // ---------------------------------------------------------- file transfer

    /** `sendFile`: refused, with nothing queued and nothing sent, when the
        channel is not open or the file is over 100 MiB; otherwise exactly
        one transfer is queued at offset 0 in state waiting, and one
        `file-meta` announces it. No byte is sent before `file-ready`. */
    method SendFile(file: SourceFile, albumId: Option<string>, env: Env) returns (outcome: SendFileOutcome)
      requires Valid()
      modifies this`outgoing, this`transfers, this`sent
      ensures Valid()
      ensures !old(ChannelOpen()) ==> outcome == ChannelNotOpen
      ensures old(ChannelOpen()) && |file.data| > MAX_FILE_SIZE ==> outcome == TooLarge
      ensures !outcome.Queued? ==>
        outgoing == old(outgoing) && transfers == old(transfers) && sent == old(sent)
      ensures outcome.Queued? ==>
        var meta := Meta(file.name, |file.data|, file.mime, env.now);
        && outcome.transferId == "tx_" + env.uid
        && outgoing == old(outgoing)[outcome.transferId := Outgoing(file, meta, 0)]
        && transfers == old(transfers)[outcome.transferId := Status(0, Some(Waiting), Some(meta), None, None)]
        && sent == old(sent) + [FileMeta(outcome.transferId, meta, albumId)]
      ensures outcome.Queued? <==> old(ChannelOpen()) && |file.data| <= MAX_FILE_SIZE
    {
      if !ChannelOpen() {
        return ChannelNotOpen;
      }
      if |file.data| > MAX_FILE_SIZE {
        return TooLarge;
      }
      var transferId := "tx_" + env.uid;
      var meta := Meta(file.name, |file.data|, file.mime, env.now);
      outgoing := outgoing[transferId := Outgoing(file, meta, 0)];
      transfers := transfers[transferId := Status(0, Some(Waiting), Some(meta), None, None)];
      SendSignal(FileMeta(transferId, meta, albumId));
      outcome := Queued(transferId);
    }

    /** `sendPendingChunks`, run on `file-ready` or a retry: from the stored
        offset it reads the file slice by slice (at most 64 KiB each), sends
        each slice as a `file-chunk` and advances the stored offset, until
        the end of the file or the first failure; SendRun says where it
        stops. At the end of the file the transfer is done at 100 %, its
        metadata is stored and it leaves the queue. On a failure it stays
        queued at the offset reached, in state error. An unknown id changes
        nothing. The metadata is filed under `album`, the album the calling
        handler reads. */
    method SendPendingChunks(transferId: string, album: Option<string>, env: Env)
      requires Valid()
      modifies this`sent, this`outgoing, this`transfers, this`fileRecords, this`messages
      ensures Valid()
      ensures transferId !in old(outgoing) ==>
        unchanged(this`sent, this`outgoing, this`transfers, this`fileRecords, this`messages)
      ensures transferId in old(outgoing) ==> RunEnded(transferId, album, env)
    {
      if transferId !in outgoing {
        return;
      }
      var q := outgoing[transferId];
      var offset, failure := SendChunks(transferId, q, env);
      if failure.Some? {
        MarkFailed(transferId, failure);
      } else {
        FinishSend(transferId, q.file, album, env);
      }
    }

    /** Inbound `file-ready`: the peer is ready, so the queued transfer is
        sent (SendPendingChunks), filed under the album that was active when
        the connection was set up. */
    method OnFileReady(transferId: string, env: Env)
      requires Valid()
      modifies this`sent, this`outgoing, this`transfers, this`fileRecords, this`messages
      ensures Valid()
      ensures ReadyTaken(transferId, env)
    {
      SendPendingChunks(transferId, setupAlbum, env);
    }

    /** What a `file-ready` leaves behind: the sending run of a queued
        transfer (RunEnded); nothing at all for an unknown id. The receiving
        side, the controls and the activity are not touched. */
    twostate predicate ReadyTaken(transferId: string, env: Env)
      reads this
    {
      && (transferId in old(outgoing) ==> RunEnded(transferId, old(setupAlbum), env))
      && (transferId !in old(outgoing) ==>
            && sent == old(sent) && outgoing == old(outgoing) && transfers == old(transfers)
            && fileRecords == old(fileRecords) && messages == old(messages))
      && incoming == old(incoming) && blobs == old(blobs) && albums == old(albums)
      && muted == old(muted) && videoOn == old(videoOn) && typingUsers == old(typingUsers) && status == old(status)
    }

    /** The outcome of a sending run over a queued transfer: the frames
        sent are the `file-chunk`s of the slices up to where SendRun stops,
        and only the transfer's own row changes. A complete run leaves the
        row done at 100 %, stores the file's metadata in `album`,
        dequeues the transfer and adds a note to the chat; a failed run
        keeps it queued at the offset reached, with the row in state error
        and the cause recorded. */
    twostate predicate RunEnded(transferId: string, album: Option<string>, env: Env)
      reads this
    {
      && transferId in old(outgoing)
      && var q := old(outgoing)[transferId];
         && q.offset <= |q.file.data|
         && var run := SendRun(q.file.data, q.offset, env.readFailsAt, old(channel).Some?);
            && sent == old(sent) + (if old(ChannelOpen()) then ChunkFrames(transferId, ChunksUntil(q.file.data, q.offset, run.0)) else [])
            && transferId in transfers && transfers - {transferId} == old(transfers) - {transferId}
            && (run.1.None? ==>
                  && outgoing == old(outgoing) - {transferId}
                  && transfers[transferId].progress == 100 && transfers[transferId].state == Some(Done)
                  && fileRecords == old(fileRecords)[transferId :=
                       FileRecord(q.file.name, q.file.mime, |q.file.data|, Truthy(album))]
                  && messages == ChatLog.Append(old(messages), SentNote(q.file.name, env.uid, env.now)))
            && (run.1.Some? ==>
                  && outgoing == old(outgoing)[transferId := q.(offset := run.0)]
                  && transfers[transferId].state == Some(Failed) && transfers[transferId].error == run.1
                  && fileRecords == old(fileRecords) && messages == old(messages))
    }

    /** The `catch` of `sendPendingChunks`: the row is marked as an error
        with its cause. */
    method MarkFailed(transferId: string, failure: Option<TransferError>)
      requires Valid() && transferId in transfers
      modifies this`transfers
      ensures Valid()
      ensures transfers == old(transfers)[transferId := old(transfers)[transferId].(state := Some(Failed), error := failure)]
    {
      transfers := transfers[transferId := transfers[transferId].(state := Some(Failed), error := failure)];
    }

    /** The end of a complete sending run: the row is done at 100 %, the
        file's metadata is stored under the transfer id in `album`,
        the queue entry is dropped and a note is added to the chat. */
    method FinishSend(transferId: string, file: SourceFile, album: Option<string>, env: Env)
      requires Valid() && transferId in transfers
      modifies this`outgoing, this`transfers, this`fileRecords, this`messages
      ensures Valid()
      ensures transfers == old(transfers)[transferId := old(transfers)[transferId].(progress := 100, state := Some(Done))]
      ensures fileRecords == old(fileRecords)[transferId :=
                FileRecord(file.name, file.mime, |file.data|, Truthy(album))]
      ensures outgoing == old(outgoing) - {transferId}
      ensures messages == ChatLog.Append(old(messages), SentNote(file.name, env.uid, env.now))
    {
      transfers := transfers[transferId := transfers[transferId].(progress := 100, state := Some(Done))];
      fileRecords := fileRecords[transferId := FileRecord(file.name, file.mime, |file.data|, Truthy(album))];
      outgoing := outgoing - {transferId};
      messages := ChatLog.Append(messages, SentNote(file.name, env.uid, env.now));
    }

    /** The loop of `sendPendingChunks`: it stops where SendRun says, having
        sent exactly the slices ChunksUntil lists and recorded after each one
        the new offset and a sending row with the rounded progress. */
    method SendChunks(transferId: string, q: Outgoing, env: Env) returns (offset: nat, failure: Option<TransferError>)
      requires Valid() && transferId in outgoing && outgoing[transferId] == q
      modifies this`sent, this`outgoing, this`transfers
      ensures Valid()
      ensures (offset, failure) == SendRun(q.file.data, q.offset, env.readFailsAt, channel.Some?)
      ensures sent == old(sent) + (if ChannelOpen() then ChunkFrames(transferId, ChunksUntil(q.file.data, q.offset, offset)) else [])
      ensures outgoing == old(outgoing)[transferId := q.(offset := offset)]
      ensures transferId in transfers && transfers - {transferId} == old(transfers) - {transferId}
    {
      var data := q.file.data;
      offset := q.offset;
      failure := None;
      ghost var open, hasChannel := ChannelOpen(), channel.Some?;
      ghost var run := SendRun(data, q.offset, env.readFailsAt, hasChannel);
      ghost var done: seq<seq<byte>> := [];
      assert outgoing == old(outgoing)[transferId := q.(offset := offset)];
      while offset < |data|
        modifies this`sent, this`outgoing, this`transfers
        invariant IncomingValid() && OutgoingValid()
        invariant q.offset <= offset <= run.0
        invariant open == ChannelOpen() && hasChannel == channel.Some?
        invariant SendRun(data, offset, env.readFailsAt, hasChannel) == run
        invariant done + ChunksUntil(data, offset, run.0) == ChunksUntil(data, q.offset, run.0)
        invariant sent == old(sent) + (if open then ChunkFrames(transferId, done) else [])
        invariant outgoing == old(outgoing)[transferId := q.(offset := offset)]
        invariant transferId in transfers && transfers - {transferId} == old(transfers) - {transferId}
        decreases |data| - offset
      {
        if offset in env.readFailsAt {
          failure := Some(ReadFailed);
          break;
        }
        if channel.None? {
          failure := Some(ChannelGone);
          break;
        }
        var chunk := data[offset..ChunkEnd(|data|, offset)];
        RunStep(data, offset, env.readFailsAt, done);
        ChunkFramesAppend(transferId, done, chunk);
        ghost var start := offset;
        offset := SendChunk(transferId, q, offset);
        assert offset == ChunkEnd(|data|, start);
        done := done + [chunk];
        assert done + ChunksUntil(data, offset, run.0) == ChunksUntil(data, q.offset, run.0);
      }
      assert done == ChunksUntil(data, q.offset, run.0);
    }

    /** `sendChunk`: one slice read at `offset` goes out as a `file-chunk`;
        the stored offset moves past it and the row shows a sending transfer
        with the rounded progress, keeping the meta it had (or taking the
        queued one). */
    method SendChunk(transferId: string, q: Outgoing, offset: nat) returns (end: nat)
      requires Valid() && transferId in outgoing && outgoing[transferId] == q.(offset := offset)
      requires offset < |q.file.data| == q.meta.size
      modifies this`sent, this`outgoing, this`transfers
      ensures Valid()
      ensures end == ChunkEnd(|q.file.data|, offset) && offset < end <= |q.file.data|
      ensures sent == old(sent) + (if ChannelOpen() then [FileChunk(transferId, q.file.data[offset..end])] else [])
      ensures outgoing == old(outgoing)[transferId := q.(offset := end)]
      ensures transfers == old(transfers)[transferId := old(StatusOf(transferId)).(
                progress := Percent(end, |q.file.data|), state := Some(Sending),
                meta := if old(StatusOf(transferId)).meta.Some? then old(StatusOf(transferId)).meta else Some(q.meta))]
    {
      end := ChunkEnd(|q.file.data|, offset);
      SendSignal(FileChunk(transferId, q.file.data[offset..end]));
      outgoing := outgoing[transferId := q.(offset := end)];
      var t := StatusOf(transferId);
      transfers := transfers[transferId := t.(progress := Percent(end, |q.file.data|), state := Some(Sending),
                                              meta := if t.meta.Some? then t.meta else Some(q.meta))];
    }

    /** `retryTransfer`: a queued transfer resumes from its stored offset,
        filed under the album active now;
        for any other id the row is only marked as an error. */
    method RetryTransfer(transferId: string, env: Env)
      requires Valid()
      modifies this`sent, this`outgoing, this`transfers, this`fileRecords, this`messages
      ensures Valid()
      ensures transferId in old(outgoing) ==> RunEnded(transferId, activeAlbum, env)
      ensures transferId !in old(outgoing) ==>
        transfers == old(transfers)[transferId := old(StatusOf(transferId)).(state := Some(Failed))]
        && sent == old(sent) && outgoing == old(outgoing) && fileRecords == old(fileRecords)
        && messages == old(messages)
    {
      if transferId in outgoing {
        SendPendingChunks(transferId, activeAlbum, env);
      } else {
        transfers := transfers[transferId := StatusOf(transferId).(state := Some(Failed))];
      }
    }

    /** The Cancel button: the row is marked cancelled and nothing else
        happens; in particular the queued transfer is left as it is. */
    method CancelTransfer(transferId: string)
      requires Valid()
      modifies this`transfers
      ensures Valid()
      ensures transfers == old(transfers)[transferId := old(StatusOf(transferId)).(state := Some(Cancelled))]
    {
      transfers := transfers[transferId := StatusOf(transferId).(state := Some(Cancelled))];
    }

    /** Inbound `file-meta`: a fresh accumulator and a receiving row at 0 %
        (replacing any earlier ones under that id), and `file-ready` back. */
    method OnFileMeta(transferId: string, meta: Meta, albumId: Option<string>, env: Env)
      requires Valid()
      modifies this`incoming, this`transfers, this`sent
      ensures Valid()
      ensures MetaTaken(transferId, meta, albumId)
    {
      incoming := incoming[transferId := Fresh(meta, Truthy(albumId))];
      transfers := transfers[transferId := Status(0, Some(Receiving), Some(meta), None, None)];
      SendSignal(FileReady(transferId));
    }

    /** Inbound `file-chunk`: ignored for an unknown transfer. Otherwise the
        chunk is appended and the byte count grows by its length; progress
        is the rounded percentage. Once the count reaches the announced
        size, the concatenated chunks are stored as a blob filed under the
        transfer's album (or a new "Shared Album"), the row is done at 100 %
        with the stored file's id, the accumulator is discarded (so a later
        chunk is ignored) and a note is added to the chat. */
    method OnFileChunk(transferId: string, chunk: seq<byte>, env: Env)
      requires Valid()
      modifies this`incoming, this`transfers, this`fileRecords, this`blobs, this`albums, this`messages
      ensures Valid()
      ensures ChunkTaken(transferId, chunk, env)
    {
      if transferId !in incoming {
        return;
      }
      var next := Accept(incoming[transferId], chunk);
      if !Complete(next) {
        incoming := incoming[transferId := next];
        transfers := transfers[transferId := StatusOf(transferId).(progress := Percent(next.received, next.meta.size))];
      } else {
        StoreReceivedFile(transferId, next, env);
      }
    }

    /** What a `file-chunk` leaves behind: nothing changes for an unknown
        transfer. Otherwise the chunk is accepted; short of the size, only
        the accumulator and the row's progress change; at the size, the
        file is stored (Stored). */
    twostate predicate ChunkTaken(transferId: string, chunk: seq<byte>, env: Env)
      reads this
    {
      && sent == old(sent) && outgoing == old(outgoing) && muted == old(muted) && videoOn == old(videoOn)
      && typingUsers == old(typingUsers) && status == old(status)
      && if transferId !in old(incoming) then
           && incoming == old(incoming) && transfers == old(transfers) && fileRecords == old(fileRecords)
           && blobs == old(blobs) && albums == old(albums) && messages == old(messages)
         else
           var next := Accept(old(incoming)[transferId], chunk);
           if Complete(next) then Stored(transferId, next, env)
           else
             && incoming == old(incoming)[transferId := next]
             && transfers == old(transfers)[transferId :=
                  old(StatusOf(transferId)).(progress := Percent(next.received, next.meta.size))]
             && fileRecords == old(fileRecords) && blobs == old(blobs) && albums == old(albums)
             && messages == old(messages)
    }

    /** What a `file-meta` leaves behind: a fresh accumulator and a
        receiving row at 0 % under the transfer id (replacing any earlier
        ones), and `file-ready` sent back. */
    twostate predicate MetaTaken(transferId: string, meta: Meta, albumId: Option<string>)
      reads this
    {
      && incoming == old(incoming)[transferId := Fresh(meta, Truthy(albumId))]
      && transfers == old(transfers)[transferId := Status(0, Some(Receiving), Some(meta), None, None)]
      && sent == old(sent) + (if ChannelOpen() then [FileReady(transferId)] else [])
      && outgoing == old(outgoing) && fileRecords == old(fileRecords) && blobs == old(blobs)
      && albums == old(albums) && messages == old(messages) && muted == old(muted) && videoOn == old(videoOn)
      && typingUsers == old(typingUsers) && status == old(status)
    }

    /** What StoreReceivedFile leaves behind, compared with the state before. */
    twostate predicate Stored(transferId: string, next: Incoming, env: Env)
      reads this
    {
      && Saved(next, env)
      && incoming == old(incoming) - {transferId}
      && transfers == old(transfers)[transferId :=
           old(StatusOf(transferId)).(progress := 100, state := Some(Done), fileId := Some(env.uid))]
      && messages == ChatLog.Append(old(messages), ReceivedNote(next.meta, env.uid, env.now))
    }

    /** What SaveReceivedFile leaves in storage, compared with before. */
    twostate predicate Saved(next: Incoming, env: Env)
      reads this
    {
      var albumId := if next.albumId.Some? then next.albumId.value else "shared_" + env.uid;
      && blobs == old(blobs)[env.uid := Flatten(next.buffers)]
      && fileRecords == old(fileRecords)[env.uid := FileRecord(next.meta.name, next.meta.mime, next.meta.size, Some(albumId))]
      && albums == (if next.albumId.Some? then old(albums)
                    else old(albums)[albumId := Album(albumId, "Shared Album", "peer", env.now)])
    }

    /** The completion branch of `file-chunk`: the file is saved (see
        SaveReceivedFile); the row is done at 100 % with the stored file's
        id; the accumulator is dropped, so a later chunk for this transfer
        is ignored; and a note is added to the chat. */
    method StoreReceivedFile(transferId: string, next: Incoming, env: Env)
      requires Valid() && transferId in incoming
      modifies this`incoming, this`transfers, this`fileRecords, this`blobs, this`albums, this`messages
      ensures Valid()
      ensures Stored(transferId, next, env)
    {
      SaveReceivedFile(next, env);
      transfers := transfers[transferId := StatusOf(transferId).(progress := 100, state := Some(Done), fileId := Some(env.uid))];
      incoming := incoming - {transferId};
      messages := ChatLog.Append(messages, ReceivedNote(next.meta, env.uid, env.now));
    }

    /** The storage half of a completed receipt: the concatenated chunks are
        stored as a blob under a fresh file id, and the file is filed under
        the transfer's album, or under a new "Shared Album" owned by "peer"
        when the transfer named none. */
    method SaveReceivedFile(next: Incoming, env: Env)
      modifies this`fileRecords, this`blobs, this`albums
      ensures Saved(next, env)
    {
      var fileId := env.uid;
      blobs := blobs[fileId := Flatten(next.buffers)];
      var albumId: string;
      if next.albumId.Some? {
        albumId := next.albumId.value;
      } else {
        albumId := "shared_" + env.uid;
        albums := albums[albumId := Album(albumId, "Shared Album", "peer", env.now)];
      }
      fileRecords := fileRecords[fileId := FileRecord(next.meta.name, next.meta.mime, next.meta.size, Some(albumId))];
    }

    // -------------------------------------------------------------- signaling

    /** `createConnection`: nothing while a connection exists or when camera
        and microphone are refused; otherwise a connection with our offer
        pending and a data channel that is still connecting. */
    method CreateConnection(mediaOk: bool)
      requires Valid()
      modifies this`link, this`channel, this`setupAlbum
      ensures Valid()
      ensures old(link).Some? || !mediaOk ==>
        link == old(link) && channel == old(channel) && setupAlbum == old(setupAlbum)
      ensures old(link).None? && mediaOk ==>
        link == Some(HaveLocalOffer) && channel == Some(Connecting) && setupAlbum == activeAlbum
    {
      if link.Some? {
        return;
      }
      if !mediaOk {
        return;
      }
      link := Some(HaveLocalOffer);
      channel := Some(Connecting);
      setupAlbum := activeAlbum;
    }

    /** `setupAnswerer`: nothing while a connection exists or when camera
        and microphone are refused; otherwise a connection in the stable
        state, whose data channel arrives later (OnDataChannel). */
    method SetupAnswerer(mediaOk: bool)
      requires Valid()
      modifies this`link, this`answering, this`setupAlbum
      ensures Valid()
      ensures old(link).Some? || !mediaOk ==>
        link == old(link) && answering == old(answering) && setupAlbum == old(setupAlbum)
      ensures old(link).None? && mediaOk ==> link == Some(Stable) && answering && setupAlbum == activeAlbum
    {
      if link.Some? {
        return;
      }
      if !mediaOk {
        return;
      }
      link, answering, setupAlbum := Some(Stable), true, activeAlbum;
    }

    /** `handleRemoteSDP`: `raw` is the pasted or scanned text and `decoded`
        the descriptor that fetching (for a link), inflating and parsing it
        produced, None when any of these threw. Blank input is ignored; the
        rest is RemoteStep, where an offer without a connection first runs
        SetupAnswerer, and the status line reports success. */
    method HandleRemoteSDP(raw: string, decoded: Option<Descriptor>, mediaOk: bool) returns (outcome: RemoteOutcome)
      requires Valid()
      modifies this`link, this`answering, this`setupAlbum, this`status
      ensures Valid()
      ensures Trim(raw) == [] ==> outcome == Ignored && link == old(link)
      ensures Trim(raw) != [] && decoded.None? ==> outcome == Rejected(Undecodable) && link == old(link)
      ensures Trim(raw) != [] && decoded.Some? ==> (outcome, link) == RemoteStep(old(link), decoded.value.kind, mediaOk)
      ensures var answerer := Trim(raw) != [] && decoded.Some? && decoded.value.kind == Offer && old(link).None? && mediaOk;
              && answering == (old(answering) || answerer)
              && setupAlbum == (if answerer then activeAlbum else old(setupAlbum))
      ensures status == (if outcome == AnswerSent then STATUS_ANSWER_SENT
                         else if outcome == RemoteSet then STATUS_REMOTE_SET else old(status))
    {
      if Trim(raw) == [] {
        return Ignored;
      }
      if decoded.None? {
        return Rejected(Undecodable);
      }
      var kind := decoded.value.kind;
      var step := RemoteStep(link, kind, mediaOk);
      if link.None? && kind == Offer {
        SetupAnswerer(mediaOk);
      }
      outcome, link := step.0, step.1;
      if outcome == AnswerSent {
        status := STATUS_ANSWER_SENT;
      } else if outcome == RemoteSet {
        status := STATUS_REMOTE_SET;
      }
    }

    /** `pc.ondatachannel`: the peer's channel arrives. Only the answering
        side's connection has this handler. */
    method OnDataChannel()
      requires Valid()
      modifies this`channel
      ensures Valid()
      ensures channel == (if answering then Some(Connecting) else old(channel))
    {
      if answering {
        channel := Some(Connecting);
      }
    }

    /** `channel.onopen`: connected, and our presence is announced. */
    method OnChannelOpen()
      requires Valid()
      modifies this`channel, this`status, this`connected, this`sent
      ensures Valid()
      ensures channel == (if old(channel).Some? then Some(Open) else None)
      ensures status == STATUS_CONNECTED && connected
      ensures sent == old(sent) + (if old(channel).Some? then [Presence(username)] else [])
    {
      if channel.Some? {
        channel := Some(Open);
      }
      status := STATUS_CONNECTED;
      connected := true;
      SendSignal(Presence(username));
    }

    /** `channel.onclose`. */
    method OnChannelClose()
      requires Valid()
      modifies this`channel, this`status, this`connected
      ensures Valid()
      ensures channel == (if old(channel).Some? then Some(Closed) else None)
      ensures status == STATUS_CHANNEL_CLOSED && !connected
    {
      if channel.Some? {
        channel := Some(Closed);
      }
      status := STATUS_CHANNEL_CLOSED;
      connected := false;
    }

    /** `endCall`: both references are dropped and the call is over. The
        resulting state does not depend on the state before, so a second
        call changes nothing. */
    method EndCall()
      requires Valid()
      modifies this`link, this`answering, this`channel, this`connected, this`status
      ensures Valid()
      ensures link.None? && !answering && channel.None? && !connected && status == STATUS_CALL_ENDED
    {
      link, answering, channel := None, false, None;
      connected := false;
      status := STATUS_CALL_ENDED;
    }
  }
}
