/**
 What the client of a well-formed stream ends up holding: what was said, in the order it arrived,
 cut into blocks by a rule that does not mention the converter.
 */
module StreamLayout {
  import opened Messages
  import opened StreamConverter
  import opened StreamInput
  import opened StreamClient
  import opened StreamRuns
  import opened StreamTheorems

  // ---- The rule ----

  datatype Item = Thought(text: string) | Words(text: string) | Use(call: ToolCall)

  function Uses(calls: seq<ToolCall>): (r: seq<Item>)
    ensures |r| == |calls|
  {
    seq(|calls|, i requires 0 <= i < |calls| => Use(calls[i]))
  }

  function Spoken(thinking: string, content: string): seq<Item> {
    (if thinking != "" then [Thought(thinking)] else []) + (if content != "" then [Words(content)] else [])
  }

  /** Everything the chunks say, in the order of arrival. */
  function Items(chunks: seq<Chunk>): seq<Item> {
    if chunks == [] then []
    else
      var r := chunks[|chunks| - 1];
      Items(chunks[..|chunks| - 1]) + (Spoken(r.thinking, r.content) + Uses(r.calls))
  }

  function Sent(kept: seq<Item>): set<string> {
    set x | x in kept && x.Use? && x.call.Encodable() :: x.call.id
  }

  predicate HasThought(kept: seq<Item>) {
    exists x :: x in kept && x.Thought?
  }

  predicate EndsThinking(kept: seq<Item>) {
    kept != [] && kept[|kept| - 1].Thought?
  }

  predicate EndsSpeaking(kept: seq<Item>) {
    kept != [] && kept[|kept| - 1].Words?
  }

  /** Thinking counts only while it goes on without interruption, a call only until its id has
      been encoded. */
  predicate Counts(kept: seq<Item>, x: Item) {
    match x
    case Thought(_) => !HasThought(kept) || EndsThinking(kept)
    case Words(_) => true
    case Use(t) => t.id !in Sent(kept)
  }

  function Add(kept: seq<Item>, x: Item): seq<Item> {
    if Counts(kept, x) then kept + [x] else kept
  }

  /** The items that count, after those already kept. */
  function AddAll(kept: seq<Item>, items: seq<Item>): seq<Item> {
    if items == [] then kept else Add(AddAll(kept, items[..|items| - 1]), items[|items| - 1])
  }

  /** Whether the last block is of the kind in which the items kept end. */
  predicate Matches(blocks: seq<Block>, kept: seq<Item>) {
    && (EndsThinking(kept) ==> blocks != [] && blocks[|blocks| - 1].ThinkingBlock?)
    && (EndsSpeaking(kept) ==> blocks != [] && blocks[|blocks| - 1].TextBlock?)
  }

  /** The blocks with one more item: more of what the items ended in, or a block of its own; a
      call that does not encode only separates what stands around it. */
  function Put(blocks: seq<Block>, kept: seq<Item>, x: Item): (r: seq<Block>)
    requires Matches(blocks, kept)
    ensures Matches(r, kept + [x])
  {
    var m := |blocks| - 1;
    match x
    case Thought(t) =>
      if EndsThinking(kept) then blocks[..m] + [ThinkingBlock(blocks[m].text + t)] else blocks + [ThinkingBlock(t)]
    case Words(t) =>
      if EndsSpeaking(kept) then blocks[..m] + [TextBlock(blocks[m].text + t)] else blocks + [TextBlock(t)]
    case Use(t) =>
      if t.Encodable() then blocks + [ToolBlock(t.id, t.name, t.arguments.json.value)] else blocks
  }

  /** One block for each uninterrupted run of thinking or of text, and one for each call. */
  function Layout(kept: seq<Item>): (r: seq<Block>)
    ensures Matches(r, kept)
  {
    if kept == [] then []
    else
      var before, x := kept[..|kept| - 1], kept[|kept| - 1];
      assert kept == before + [x];
      Put(Layout(before), before, x)
  }

  /** The blocks of a whole sequence of chunks. */
  function LayoutOf(chunks: seq<Chunk>): seq<Block> {
    Layout(AddAll([], Items(chunks)))
  }

  lemma AddOne(kept: seq<Item>, x: Item)
    ensures AddAll(kept, [x]) == Add(kept, x)
  {
    assert [x][..0] == [];
  }

  lemma {:induction false} AddConcat(kept: seq<Item>, a: seq<Item>, b: seq<Item>)
    ensures AddAll(kept, a + b) == AddAll(AddAll(kept, a), b)
    decreases |b|
  {
    if b == [] {
      assert a + b == a;
    } else {
      var front := b[..|b| - 1];
      assert (a + b)[..|a + b| - 1] == a + front;
      AddConcat(kept, a, front);
    }
  }

  lemma UsesSnoc(kept: seq<Item>, calls: seq<ToolCall>, t: ToolCall)
    ensures AddAll(kept, Uses(calls + [t])) == Add(AddAll(kept, Uses(calls)), Use(t))
  {
    assert Uses(calls + [t]) == Uses(calls) + [Use(t)];
    AddConcat(kept, Uses(calls), [Use(t)]);
    AddOne(AddAll(kept, Uses(calls)), Use(t));
  }

  lemma SentSnoc(kept: seq<Item>, x: Item)
    ensures Sent(kept + [x]) == Sent(kept) + (if x.Use? && x.call.Encodable() then {x.call.id} else {})
    ensures HasThought(kept + [x]) <==> HasThought(kept) || x.Thought?
  {
    var all := kept + [x];
    assert x in all && forall y :: y in all <==> y in kept || y == x;
  }

  lemma LayoutSnoc(kept: seq<Item>, x: Item)
    ensures Layout(kept + [x]) == Put(Layout(kept), kept, x)
  {
    assert (kept + [x])[..|kept|] == kept;
  }

  // ---- The client holds the layout ----

  /** The converter's flags are facts about the items kept. */
  ghost predicate FlagsTrack(c: Converter, kept: seq<Item>) {
    && c.toolCallsSent == Sent(kept)
    && (c.textStarted <==> EndsSpeaking(kept))
    && (c.thinkingStarted <==> HasThought(kept))
    && (c.ThinkingOpen() <==> EndsThinking(kept))
    && (c.thinkingDone ==> c.thinkingStarted)
  }

  ghost predicate Tracks(c: Converter, k: Client, kept: seq<Item>) {
    Linked(c, k) && View(k) == Layout(kept) && FlagsTrack(c, kept)
  }

  /** The open block is the last of the layout. */
  lemma OpenIsLast(k: Client, blocks: seq<Block>)
    requires k.Receiving? && k.open.Some? && View(k) == blocks
    ensures blocks != [] && k.open.value == blocks[|blocks| - 1] && k.blocks == blocks[..|blocks| - 1]
  {
  }

  lemma ThinkFlags(c: Converter, kept: seq<Item>, thinking: string)
    requires FlagsTrack(c, kept) && thinking != ""
    requires !c.thinkingDone && !c.thinkingStarted ==> !c.textStarted
    ensures FlagsTrack(Think(c, thinking).c, Add(kept, Thought(thinking)))
    ensures Counts(kept, Thought(thinking)) <==> !c.thinkingDone
  {
    SentSnoc(kept, Thought(thinking));
  }

  lemma ThinkTracks(c: Converter, k: Client, kept: seq<Item>, thinking: string)
    requires Live(c, k) && Tracks(c, k, kept) && thinking != ""
    requires !c.thinkingDone && !c.thinkingStarted ==> !c.textStarted
    ensures var o := Think(c, thinking);
            var k' := ReceiveAll(k, o.events);
            Live(o.c, k') && Tracks(o.c, k', Add(kept, Thought(thinking)))
  {
    ThinkFlags(c, kept, thinking);
    ThinkLinks(c, thinking, k);
    if !c.thinkingDone {
      LayoutSnoc(kept, Thought(thinking));
      if c.thinkingStarted {
        OpenIsLast(k, Layout(kept));
      }
    }
  }

  lemma WriteFlags(c: Converter, kept: seq<Item>, content: string)
    requires FlagsTrack(c, kept) && content != ""
    ensures FlagsTrack(Write(c, content).c, Add(kept, Words(content)))
  {
    SentSnoc(kept, Words(content));
  }

  lemma WriteTracks(c: Converter, k: Client, kept: seq<Item>, content: string)
    requires Live(c, k) && Tracks(c, k, kept) && content != ""
    ensures var o := Write(c, content);
            var k' := ReceiveAll(k, o.events);
            Live(o.c, k') && Tracks(o.c, k', Add(kept, Words(content)))
  {
    WriteFlags(c, kept, content);
    WriteLinks(c, content, k);
    LayoutSnoc(kept, Words(content));
    if c.textStarted {
      OpenIsLast(k, Layout(kept));
    }
  }

  lemma CallTracks(c: Converter, k: Client, kept: seq<Item>, t: ToolCall)
    requires Live(c, k) && Tracks(c, k, kept)
    ensures var o := Call(c, t);
            var k' := ReceiveAll(k, o.events);
            Live(o.c, k') && Tracks(o.c, k', Add(kept, Use(t)))
  {
    CallLinks(c, t, k);
    LayoutSnoc(kept, Use(t));
    SentSnoc(kept, Use(t));
    assert View(k) + [] == View(k);
  }

  lemma {:induction false} CallsTrack(c: Converter, k: Client, kept: seq<Item>, calls: seq<ToolCall>)
    requires Live(c, k) && Tracks(c, k, kept)
    ensures var o := Calls(c, calls);
            var k' := ReceiveAll(k, o.events);
            Live(o.c, k') && Tracks(o.c, k', AddAll(kept, Uses(calls)))
  {
    if calls != [] {
      var n := |calls| - 1;
      var before, t := calls[..n], calls[n];
      assert calls == before + [t];
      var p := Calls(c, before);
      CallsTrack(c, k, kept, before);
      CallTracks(p.c, ReceiveAll(k, p.events), AddAll(kept, Uses(before)), t);
      ReceiveConcat(k, p.events, Call(p.c, t).events);
      UsesSnoc(kept, before, t);
    }
  }

  lemma BeginTracks(c: Converter, k: Client, kept: seq<Item>, r: Chunk)
    requires Tracks(c, k, kept)
    ensures var o := Begin(c, r);
            var k' := ReceiveAll(k, o.events);
            Live(o.c, k') && Tracks(o.c, k', kept)
  {
    BeginLinks(c, r, k);
    BeginKeeps(c, r);
  }

  lemma SpokenItems(kept: seq<Item>, thinking: string, content: string)
    ensures var thought := if thinking != "" then Add(kept, Thought(thinking)) else kept;
            AddAll(kept, Spoken(thinking, content)) == if content != "" then Add(thought, Words(content)) else thought
  {
    var a := if thinking != "" then [Thought(thinking)] else [];
    var b := if content != "" then [Words(content)] else [];
    AddConcat(kept, a, b);
    AddOne(kept, Thought(thinking));
    AddOne(AddAll(kept, a), Words(content));
  }

  lemma SpeechTracks(c: Converter, k: Client, kept: seq<Item>, r: Chunk)
    requires Tracks(c, k, kept) && !Misplaced(c, r)
    ensures var o := Speech(c, r);
            var k' := ReceiveAll(k, o.events);
            Live(o.c, k') && Tracks(o.c, k', AddAll(kept, Spoken(r.thinking, r.content)))
  {
    var a := Begin(c, r);
    var b := Think(a.c, r.thinking);
    var d := Write(b.c, r.content);
    var k1 := ReceiveAll(k, a.events);
    var k2 := ReceiveAll(k1, b.events);
    var thought := if r.thinking != "" then Add(kept, Thought(r.thinking)) else kept;
    BeginTracks(c, k, kept, r);
    BeginKeeps(c, r);
    if r.thinking != "" {
      ThinkTracks(a.c, k1, kept, r.thinking);
    }
    if r.content != "" {
      WriteTracks(b.c, k2, thought, r.content);
    }
    SpokenItems(kept, r.thinking, r.content);
    ReceiveConcat(k, a.events, b.events);
    ReceiveConcat(k, a.events + b.events, d.events);
  }

  lemma BodyTracks(c: Converter, k: Client, kept: seq<Item>, r: Chunk)
    requires Tracks(c, k, kept) && !Misplaced(c, r)
    ensures var o := Body(c, r);
            var k' := ReceiveAll(k, o.events);
            Live(o.c, k') && Tracks(o.c, k', AddAll(kept, Spoken(r.thinking, r.content) + Uses(r.calls)))
  {
    var d := Speech(c, r);
    SpeechTracks(c, k, kept, r);
    CallsTrack(d.c, ReceiveAll(k, d.events), AddAll(kept, Spoken(r.thinking, r.content)), r.calls);
    ReceiveConcat(k, d.events, Calls(d.c, r.calls).events);
    AddConcat(kept, Spoken(r.thinking, r.content), Uses(r.calls));
  }

  /** The client, and the items kept, after the body of one more chunk. */
  lemma NextTracks(c: Converter, before: seq<Chunk>, r: Chunk)
    requires c == NewConverter(c.id, c.model, c.estimatedInputTokens)
    requires Admissible(before + [r])
    requires Tracks(Run(c, before).c, ReceiveAll(Waiting, Run(c, before).events), AddAll([], Items(before)))
    ensures var p := Run(c, before);
            var b := Body(p.c, r);
            var k := ReceiveAll(Waiting, p.events + b.events);
            Live(b.c, k) && Tracks(b.c, k, AddAll([], Items(before + [r])))
  {
    var p := Run(c, before);
    RunFlags(c, before);
    AdmissibleSnoc(before, r);
    BodyTracks(p.c, ReceiveAll(Waiting, p.events), AddAll([], Items(before)), r);
    ReceiveConcat(Waiting, p.events, Body(p.c, r).events);
    assert (before + [r])[..|before|] == before;
    AddConcat([], Items(before), Spoken(r.thinking, r.content) + Uses(r.calls));
  }

  lemma {:induction false} RunTracks(c: Converter, chunks: seq<Chunk>)
    requires c == NewConverter(c.id, c.model, c.estimatedInputTokens)
    requires NoDone(chunks) && Admissible(chunks)
    ensures Tracks(Run(c, chunks).c, ReceiveAll(Waiting, Run(c, chunks).events), AddAll([], Items(chunks)))
  {
    if chunks != [] {
      var n := |chunks| - 1;
      var before, r := chunks[..n], chunks[n];
      assert chunks == before + [r];
      AdmissibleSnoc(before, r);
      RunTracks(c, before);
      NextTracks(c, before, r);
      RunSplit(c, before, r);
      var p := Run(c, before);
      var b := Body(p.c, r);
      assert p.events + b.events + [] == p.events + b.events;
    }
  }

  /** The client that has received a whole stream of these chunks. */
  function Received(chunks: seq<Chunk>): Client
    requires |chunks| > 0
  {
    var r := chunks[|chunks| - 1];
    Complete(LayoutOf(chunks), MapStopReason(r.doneReason, EncodedIds(AllCalls(chunks)) != {}, r.stopSequence),
             r.stopSequence, UsageFromMetrics(r.metrics).(compression := r.compression))
  }

  /** Every admissible stream that ends with its one Done chunk leaves the client with the layout
      of its chunks, and the last chunk's stop reason and usage. */
  lemma AdmissibleStreamHolds(c: Converter, chunks: seq<Chunk>)
    requires c == NewConverter(c.id, c.model, c.estimatedInputTokens)
    requires DoneLast(chunks) && Admissible(chunks)
    ensures var k, r := ReceiveAll(Waiting, Run(c, chunks).events), chunks[|chunks| - 1];
            && k == Received(chunks)
            && TellsStop(k.stopReason, r.doneReason, exists t :: t in AllCalls(chunks) && t.Encodable(), r.stopSequence)
  {
    var n := |chunks| - 1;
    var before, r := chunks[..n], chunks[n];
    assert chunks == before + [r];
    AdmissibleSnoc(before, r);
    RunTracks(c, before);
    NextTracks(c, before, r);
    RunSplit(c, before, r);
    var p := Run(c, before);
    var b := Body(p.c, r);
    var k := ReceiveAll(Waiting, p.events + b.events);
    ReceiveConcat(Waiting, p.events + b.events, Finish(b.c, r).events);
    FinishLinks(b.c, r, k);
    RunFlags(c, chunks);
    FinishKeepsSent(b.c, r);
    SomeEncodable(AllCalls(chunks));
  }

  lemma SomeEncodable(calls: seq<ToolCall>)
    ensures EncodedIds(calls) != {} <==> exists t :: t in calls && t.Encodable()
  {
    if t :| t in calls && t.Encodable() {
      assert t.id in EncodedIds(calls);
    }
  }

  lemma FinishKeepsSent(c: Converter, r: Chunk)
    ensures Finish(c, r).c.toolCallsSent == c.toolCallsSent
  {
  }
}
