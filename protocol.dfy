/** The application protocol spoken over the data channel: one JSON object
    `{type, payload}` per frame, or, for old peers, a bare text frame. This
    module holds the message kinds and the pure part of their handling: what
    each one does to the chat log, given the note a finished file transfer
    adds. */
module Protocol {
  import opened Base
  import ChatLog
  import opened Transfer

  datatype Album = Album(id: string, name: string, owner: string, ts: int)

  /** One frame's JSON object, by its `type`. A `type` the application does
      not know (or a missing one) is `Unrecognized`. */
  datatype Message =
    | Chat(entry: ChatLog.Entry)
    | Typing(username: string)
    | Reaction(id: string, symbol: string)
    | Edit(id: string, text: string)
    | Delete(id: string)
    | Ack(id: string)
    | Presence(username: string)
    | FileMeta(transferId: string, meta: Meta, albumId: Option<string>)
    | FileChunk(transferId: string, chunk: seq<byte>)
    | FileReady(transferId: string)
    | AlbumSync(album: Album)
    | Control(cmd: string)
    | Unrecognized(kind: string)

  /** A received frame: it parsed as JSON, or it did not. */
  datatype Frame = Json(msg: Message) | PlainText(data: string)

  /** JavaScript truthiness of an optional string (`x || null`): the empty
      string counts as absent. */
  function Truthy(o: Option<string>): (r: Option<string>)
    ensures r.Some? <==> o.Some? && o.value != ""
    ensures r.Some? ==> r == o
  {
    if o.Some? && o.value != "" then o else None
  }

  predicate ClearsChat(m: Message) {
    m.Control? && m.cmd == "clear-chat"
  }

  /** The messages whose handling consists of a chat-log update alone
      (apart from the `ack` a `chat` sends back and the toggles a `control`
      makes). */
  predicate IsLogMessage(m: Message) {
    m.Chat? || m.Reaction? || m.Edit? || m.Delete? || m.Ack? || m.Control?
  }

  /** The file-transfer messages. */
  predicate IsFileMessage(m: Message) {
    m.FileMeta? || m.FileChunk? || m.FileReady?
  }

  /** The messages that can finish a file transfer: a `file-chunk` that
      completes a receipt, and a `file-ready` whose sending run reaches the
      end of the file. Either one then adds a system note to the chat. */
  predicate MayComplete(m: Message) {
    m.FileChunk? || m.FileReady?
  }

  /** Whether handling `m` adds one entry to the log: every `chat` does, and
      a transfer message does when it finishes its transfer, in which case
      `note` is the note it adds. */
  predicate AddsEntry(m: Message, note: Option<ChatLog.Entry>) {
    m.Chat? || (MayComplete(m) && note.Some?)
  }

  /** What `handleSignal` does to the chat log. `note` is the system note
      added when the message finishes a file transfer (None when it does
      not); whether it does depends on the transfer tables, not on the log,
      so it is an input here. Every other message type, and a `note` given
      with a message that cannot finish a transfer, leaves the log alone. */
  function ReduceLog(log: seq<ChatLog.Entry>, m: Message, note: Option<ChatLog.Entry>): (r: seq<ChatLog.Entry>)
    ensures !ClearsChat(m) ==> |log| <= |r| && ChatLog.Ids(r)[..|log|] == ChatLog.Ids(log)
    ensures |r| == (if ClearsChat(m) then 0 else if AddsEntry(m, note) then |log| + 1 else |log|)
    ensures MayComplete(m) ==> r == log + (if note.Some? then [note.value] else [])
    ensures !IsLogMessage(m) && !MayComplete(m) ==> r == log
  {
    match m
    case Chat(e) => ChatLog.Receive(log, e)
    case Reaction(id, symbol) => ChatLog.React(log, id, symbol)
    case Edit(id, text) => ChatLog.Edit(log, id, text)
    case Delete(id) => ChatLog.Delete(log, id)
    case Ack(id) => ChatLog.Acknowledge(log, id)
    case Control(cmd) => if cmd == "clear-chat" then [] else log
    case FileChunk(_, _) => if note.Some? then ChatLog.Append(log, note.value) else log
    case FileReady(_) => if note.Some? then ChatLog.Append(log, note.value) else log
    case _ => log
  }

  /** A stream of messages, each with the note it adds on finishing a
      transfer (`notes[i]` belongs to `ms[i]`). */
  function ReduceAll(log: seq<ChatLog.Entry>, ms: seq<Message>, notes: seq<Option<ChatLog.Entry>>): seq<ChatLog.Entry>
    requires |notes| == |ms|
    decreases ms
  {
    if ms == [] then log else ReduceAll(ReduceLog(log, ms[0], notes[0]), ms[1..], notes[1..])
  }

  /** How many entries a stream adds: one per `chat` and one per finished
      transfer. */
  function CountAdded(ms: seq<Message>, notes: seq<Option<ChatLog.Entry>>): nat
    requires |notes| == |ms|
  {
    if ms == [] then 0 else (if AddsEntry(ms[0], notes[0]) then 1 else 0) + CountAdded(ms[1..], notes[1..])
  }

  /** Entries are never physically removed or reordered: short of a
      `clear-chat` command, any stream of messages leaves the earlier
      entries' ids in place and adds exactly one entry per `chat` and one
      per finished file transfer. */
  lemma {:induction false} LogIsAppendOnly(log: seq<ChatLog.Entry>, ms: seq<Message>, notes: seq<Option<ChatLog.Entry>>)
    requires |notes| == |ms|
    requires forall i :: 0 <= i < |ms| ==> !ClearsChat(ms[i])
    ensures var r := ReduceAll(log, ms, notes);
            |r| == |log| + CountAdded(ms, notes) && ChatLog.Ids(r)[..|log|] == ChatLog.Ids(log)
    decreases ms
  {
    if ms != [] {
      var next := ReduceLog(log, ms[0], notes[0]);
      LogIsAppendOnly(next, ms[1..], notes[1..]);
      var r := ReduceAll(next, ms[1..], notes[1..]);
      assert ChatLog.Ids(r)[..|log|] == ChatLog.Ids(r)[..|next|][..|log|];
    }
  }

  /** A chat round trip: we append our entry and send `chat`; the peer
      takes it in and answers `ack`; once that `ack` is handled, our copy
      and the peer's copy of the entry are identical and both delivered. */
  lemma ChatAckRoundTrip(mine: seq<ChatLog.Entry>, theirs: seq<ChatLog.Entry>, e: ChatLog.Entry)
    ensures var ours := ReduceLog(ChatLog.Append(mine, e), Ack(e.id), None);
            var peer := ReduceLog(theirs, Chat(e), None);
            && |ours| == |mine| + 1 && |peer| == |theirs| + 1
            && ours[|mine|] == peer[|theirs|] && ours[|mine|].delivered
  {
  }

  /** The `file-chunk` frames for a sequence of chunks. */
  function ChunkFrames(transferId: string, cs: seq<seq<byte>>): (r: seq<Message>)
    ensures |r| == |cs|
    ensures forall i :: 0 <= i < |cs| ==> r[i] == FileChunk(transferId, cs[i])
  {
    if cs == [] then [] else [FileChunk(transferId, cs[0])] + ChunkFrames(transferId, cs[1..])
  }

  lemma ChunkFramesAppend(transferId: string, cs: seq<seq<byte>>, c: seq<byte>)
    ensures ChunkFrames(transferId, cs + [c]) == ChunkFrames(transferId, cs) + [FileChunk(transferId, c)]
  {
    var l := ChunkFrames(transferId, cs + [c]);
    var r := ChunkFrames(transferId, cs) + [FileChunk(transferId, c)];
    assert forall i :: 0 <= i < |l| ==> l[i] == r[i];
  }
}
