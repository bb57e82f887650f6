/**
 The reader's side of the stream: a client that folds events into content blocks and breaks
 on the first event that the streaming protocol does not allow at that point.
 */
module StreamClient {
  import opened Options
  import opened Messages
  import opened StreamConverter

  /** `UnencodedTool` is a tool call whose arguments do not encode: a non-streaming answer may
      hold one, the client of a stream never does. */
  datatype Block =
    | ThinkingBlock(text: string)
    | TextBlock(text: string)
    | ToolBlock(id: string, name: string, json: string)
    | UnencodedTool(id: string, name: string)

  datatype Client =
    | Waiting
    | Receiving(blocks: seq<Block>, open: Option<Block>)
    | Summarised(blocks: seq<Block>, stopReason: string, stopSequence: string, usage: Usage)
    | Complete(blocks: seq<Block>, stopReason: string, stopSequence: string, usage: Usage)
    | Broken

  function EmptyBlock(k: BlockKind): Block {
    match k
    case ThinkingKind => ThinkingBlock("")
    case TextKind => TextBlock("")
    case ToolKind(id, name) => ToolBlock(id, name, "")
  }

  /** Whether a delta belongs to the kind of the block. */
  predicate Fits(b: Block, d: Delta) {
    match d
    case ThinkingDelta(_) => b.ThinkingBlock?
    case TextDelta(_) => b.TextBlock?
    case JsonDelta(_) => b.ToolBlock?
  }

  function Extend(b: Block, d: Delta): Block
    requires Fits(b, d)
  {
    match d
    case ThinkingDelta(t) => ThinkingBlock(b.text + t)
    case TextDelta(t) => TextBlock(b.text + t)
    case JsonDelta(j) => ToolBlock(b.id, b.name, b.json + j)
  }

  function Receive(k: Client, e: Event): Client {
    match e
    case MessageStart(_, _, _) =>
      if k.Waiting? then Receiving([], None) else Broken
    case BlockStart(i, kind) =>
      if k.Receiving? && k.open.None? && i == |k.blocks| then k.(open := Some(EmptyBlock(kind))) else Broken
    case BlockDelta(i, d) =>
      if k.Receiving? && k.open.Some? && i == |k.blocks| && Fits(k.open.value, d)
      then k.(open := Some(Extend(k.open.value, d))) else Broken
    case BlockStop(i) =>
      if k.Receiving? && k.open.Some? && i == |k.blocks|
      then Receiving(k.blocks + [k.open.value], None) else Broken
    case MessageDelta(reason, sequence, usage) =>
      if k.Receiving? && k.open.None? then Summarised(k.blocks, reason, sequence, usage) else Broken
    case MessageStop =>
      if k.Summarised? then Complete(k.blocks, k.stopReason, k.stopSequence, k.usage) else Broken
  }

  function ReceiveAll(k: Client, events: seq<Event>): Client {
    if events == [] then k
    else Receive(ReceiveAll(k, events[..|events| - 1]), events[|events| - 1])
  }

  lemma {:induction false} ReceiveConcat(k: Client, a: seq<Event>, b: seq<Event>)
    ensures ReceiveAll(k, a + b) == ReceiveAll(ReceiveAll(k, a), b)
    decreases |b|
  {
    if b == [] {
      assert a + b == a;
    } else {
      assert (a + b)[..|a + b| - 1] == a + b[..|b| - 1];
      ReceiveConcat(k, a, b[..|b| - 1]);
    }
  }

  lemma {:induction false} BrokenForever(events: seq<Event>)
    ensures ReceiveAll(Broken, events) == Broken
  {
    if events != [] {
      BrokenForever(events[..|events| - 1]);
    }
  }

  // ---- What a complete stream looks like, event by event ----

  /** The indices carried by the block starts (or the block stops), in order. */
  function Starts(events: seq<Event>): seq<int> {
    if events == [] then []
    else
      var e := events[|events| - 1];
      Starts(events[..|events| - 1]) + (if e.BlockStart? then [e.index] else [])
  }

  function Stops(events: seq<Event>): seq<int> {
    if events == [] then []
    else
      var e := events[|events| - 1];
      Stops(events[..|events| - 1]) + (if e.BlockStop? then [e.index] else [])
  }

  function UpTo(n: nat): (r: seq<int>)
    ensures |r| == n && forall i :: 0 <= i < n ==> r[i] == i
  {
    seq(n, i => i)
  }

  /** Position `s` starts a block, and only deltas lie between it and position `p`. */
  ghost predicate StillOpen(events: seq<Event>, s: nat, p: nat) {
    && s < p <= |events|
    && events[s].BlockStart?
    && forall q :: s < q < p ==> events[q].BlockDelta?
  }

  /** The delta or stop at `p` belongs to the block that is open there: same index, same kind. */
  ghost predicate InOwnBlock(events: seq<Event>, p: nat)
    requires p < |events| && (events[p].BlockDelta? || events[p].BlockStop?)
  {
    exists s: nat :: StillOpen(events, s, p) && events[s].index == events[p].index
                     && (events[p].BlockDelta? ==> Fits(EmptyBlock(events[s].kind), events[p].delta))
  }

  ghost predicate BlocksNest(events: seq<Event>) {
    forall i :: 0 <= i < |events| && (events[i].BlockDelta? || events[i].BlockStop?) ==> InOwnBlock(events, i)
  }

  /** The protocol in terms of positions, without the client: `message_start` first and only
      there, the two closing events last and only there, blocks numbered 0, 1, 2, ... and each
      stopped once, every delta and stop inside the open block of its own index and kind. */
  ghost predicate WellFormed(events: seq<Event>) {
    && |events| >= 3
    && (forall i :: 0 <= i < |events| ==> (events[i].MessageStart? <==> i == 0))
    && (forall i :: 0 <= i < |events| ==> (events[i].MessageDelta? <==> i == |events| - 2))
    && (forall i :: 0 <= i < |events| ==> (events[i].MessageStop? <==> i == |events| - 1))
    && Starts(events) == Stops(events) == UpTo(|Starts(events)|)
    && BlocksNest(events)
  }
}
