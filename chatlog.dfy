/** The chat log: a sequence of entries that is only ever appended to or
    patched entry-by-entry, where an entry is picked by its `id`. Every
    reducer here mirrors one `m.map(...)` or spread expression that the
    application hands to `setMessages` (src/App.jsx). */
module ChatLog {
  import opened Base

  datatype Kind = Text | System

  /** One chat entry. Fields the application leaves undefined on some
      entries (`delivered` on system notes, `edited`, `deleted`,
      `reactions`) read as false / empty, which is how the application
      treats them. */
  datatype Entry = Entry(
    id: string,
    from: string,
    kind: Kind,
    text: string,
    ts: int,
    delivered: bool,
    edited: bool,
    deleted: bool,
    reactions: map<string, nat>)

  /** `counts[symbol] || 0`: the number of times `symbol` was applied. */
  function Count(e: Entry, symbol: string): nat {
    if symbol in e.reactions then e.reactions[symbol] else 0
  }

  /** The per-entry changes the log reducers make. */
  datatype Patch =
    | AddReaction(symbol: string)
    | SetText(text: string)
    | Tombstone
    | Restore
    | MarkDelivered

  function Apply(e: Entry, p: Patch): Entry {
    match p
    case AddReaction(symbol) => e.(reactions := e.reactions[symbol := Count(e, symbol) + 1])
    case SetText(text) => e.(text := text, edited := true)
    case Tombstone => e.(deleted := true)
    case Restore => e.(deleted := false)
    case MarkDelivered => e.(delivered := true)
  }

  /** `m.map(mm => mm.id === id ? patched(mm) : mm)`: every entry whose id
      matches is patched, every other entry is kept, and the log keeps its
      length and order. */
  function PatchById(log: seq<Entry>, id: string, p: Patch): (r: seq<Entry>)
    ensures |r| == |log|
    ensures forall i :: 0 <= i < |log| && log[i].id == id ==> r[i] == Apply(log[i], p)
    ensures forall i :: 0 <= i < |log| && log[i].id != id ==> r[i] == log[i]
  {
    if log == [] then []
    else [if log[0].id == id then Apply(log[0], p) else log[0]] + PatchById(log[1..], id, p)
  }

  /** The ids of the log, in order. */
  function Ids(log: seq<Entry>): (r: seq<string>)
    ensures |r| == |log| && forall i :: 0 <= i < |log| ==> r[i] == log[i].id
  {
    seq(|log|, i requires 0 <= i < |log| => log[i].id)
  }

  /** Inbound `chat`: the payload is appended with `delivered` forced to
      true; every earlier entry stays where it was. */
  function Receive(log: seq<Entry>, e: Entry): (r: seq<Entry>)
    ensures |r| == |log| + 1 && r[..|log|] == log
    ensures r[|log|] == e.(delivered := true) && r[|log|].delivered
  {
    log + [e.(delivered := true)]
  }

  /** Local send (`sendMessage`) and the notes the application adds itself:
      the entry is appended unchanged. */
  function Append(log: seq<Entry>, e: Entry): (r: seq<Entry>)
    ensures |r| == |log| + 1 && r[..|log|] == log && r[|log|] == e
  {
    log + [e]
  }

  /** `reaction`, received or applied locally: exactly one more `symbol` on
      every entry whose id matches (starting from 0), every other count and
      every other field untouched. */
  function React(log: seq<Entry>, id: string, symbol: string): (r: seq<Entry>)
    ensures |r| == |log| && Ids(r) == Ids(log)
    ensures forall i, s :: 0 <= i < |log| ==>
      Count(r[i], s) == Count(log[i], s) + (if log[i].id == id && s == symbol then 1 else 0)
    ensures forall i :: 0 <= i < |log| ==> r[i] == log[i].(reactions := r[i].reactions)
    ensures forall i :: 0 <= i < |log| && log[i].id != id ==> r[i] == log[i]
  {
    PatchById(log, id, AddReaction(symbol))
  }

  /** `edit`: matching entries get the new text and the `edited` mark. */
  function Edit(log: seq<Entry>, id: string, text: string): (r: seq<Entry>)
    ensures |r| == |log| && Ids(r) == Ids(log)
    ensures forall i :: 0 <= i < |log| && log[i].id == id ==>
      r[i] == log[i].(text := text, edited := true)
    ensures forall i :: 0 <= i < |log| && log[i].id != id ==> r[i] == log[i]
  {
    PatchById(log, id, SetText(text))
  }

  /** `delete`: matching entries become tombstones; nothing is removed. */
  function Delete(log: seq<Entry>, id: string): (r: seq<Entry>)
    ensures |r| == |log| && Ids(r) == Ids(log)
    ensures forall i :: 0 <= i < |log| && log[i].id == id ==> r[i] == log[i].(deleted := true)
    ensures forall i :: 0 <= i < |log| && log[i].id != id ==> r[i] == log[i]
  {
    PatchById(log, id, Tombstone)
  }

  /** `undoDelete`: matching entries lose the tombstone again. */
  function Undelete(log: seq<Entry>, id: string): (r: seq<Entry>)
    ensures |r| == |log| && Ids(r) == Ids(log)
    ensures forall i :: 0 <= i < |log| && log[i].id == id ==> r[i] == log[i].(deleted := false)
    ensures forall i :: 0 <= i < |log| && log[i].id != id ==> r[i] == log[i]
  {
    PatchById(log, id, Restore)
  }

  /** `ack`: the matching locally sent entries are marked delivered. */
  function Acknowledge(log: seq<Entry>, id: string): (r: seq<Entry>)
    ensures |r| == |log| && Ids(r) == Ids(log)
    ensures forall i :: 0 <= i < |log| && log[i].id == id ==> r[i] == log[i].(delivered := true)
    ensures forall i :: 0 <= i < |log| && log[i].id != id ==> r[i] == log[i]
  {
    PatchById(log, id, MarkDelivered)
  }

  predicate HasId(log: seq<Entry>, id: string) {
    exists i | 0 <= i < |log| :: log[i].id == id
  }

  /** A patch whose id matches no entry leaves the log exactly as it was
      (an `ack`, `edit`, `delete` or `reaction` for an unknown id is a no-op). */
  lemma PatchUnknownIdIsNoOp(log: seq<Entry>, id: string, p: Patch)
    requires !HasId(log, id)
    ensures PatchById(log, id, p) == log
  {
    var r := PatchById(log, id, p);
    assert forall i :: 0 <= i < |log| ==> r[i] == log[i];
  }

  /** Applying `ack`, `delete` or an undo twice is the same as once; a
      reaction is not (see ReactionIsCounted). */
  lemma FlagPatchesIdempotent(log: seq<Entry>, id: string)
    ensures Acknowledge(Acknowledge(log, id), id) == Acknowledge(log, id)
    ensures Delete(Delete(log, id), id) == Delete(log, id)
    ensures Undelete(Undelete(log, id), id) == Undelete(log, id)
  {
  }

  /** A reaction delivered twice counts twice: at-least-once counting, not
      a toggle. */
  lemma ReactionIsCounted(log: seq<Entry>, id: string, symbol: string, i: nat)
    requires i < |log| && log[i].id == id
    ensures Count(React(React(log, id, symbol), id, symbol)[i], symbol) == Count(log[i], symbol) + 2
  {
  }

  /** Undoing a delete gives back the log as it was before the delete,
      provided the matching entries were not already tombstones. */
  lemma UndoRestoresLog(log: seq<Entry>, id: string)
    requires forall i :: 0 <= i < |log| && log[i].id == id ==> !log[i].deleted
    ensures Undelete(Delete(log, id), id) == log
  {
    var r := Undelete(Delete(log, id), id);
    assert forall i :: 0 <= i < |log| ==> r[i] == log[i];
  }

  /** Repeated delivery of reactions, in order. */
  function ReactAll(log: seq<Entry>, rs: seq<(string, string)>): (r: seq<Entry>)
    ensures |r| == |log|
    decreases rs
  {
    if rs == [] then log else ReactAll(React(log, rs[0].0, rs[0].1), rs[1..])
  }

  /** Reaction counts never go down, whatever reactions arrive, and ids
      never move. */
  lemma {:induction false} ReactionCountsMonotone(log: seq<Entry>, rs: seq<(string, string)>)
    ensures Ids(ReactAll(log, rs)) == Ids(log)
    ensures forall i, s :: 0 <= i < |log| ==> Count(ReactAll(log, rs)[i], s) >= Count(log[i], s)
    decreases rs
  {
    if rs != [] {
      var next := React(log, rs[0].0, rs[0].1);
      ReactionCountsMonotone(next, rs[1..]);
    }
  }
}
