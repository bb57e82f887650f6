/** The stream against the non-streaming answer. */
module StreamResponse {
  import opened Options
  import opened Messages
  import opened StreamConverter
  import opened StreamInput
  import opened StreamClient
  import opened StreamLayout

  // ---- The answer as blocks ----

  function ToolBlockOf(id: string, name: string, input: Arguments): Block {
    if input.json.Some? then ToolBlock(id, name, input.json.value) else UnencodedTool(id, name)
  }

  function BlockOf(b: ContentBlock): Block {
    match b
    case Thinking(t) => ThinkingBlock(t)
    case Text(t) => TextBlock(t)
    case ToolUse(id, name, input) => ToolBlockOf(id, name, input)
  }

  /** One block for each content block. */
  function BlocksOf(content: seq<ContentBlock>): (r: seq<Block>)
    ensures |r| == |content|
  {
    seq(|content|, i requires 0 <= i < |content| => BlockOf(content[i]))
  }

  /** The client that holds the whole non-streaming answer made of `r`. */
  function Answer(r: Chunk): Client {
    Complete(BlocksOf(ContentOf(r)), MapStopReason(r.doneReason, |r.calls| > 0, r.stopSequence),
             r.stopSequence, UsageFromMetrics(r.metrics).(compression := r.compression))
  }

  function ToolBlocks(calls: seq<ToolCall>): (r: seq<Block>)
    ensures |r| == |calls|
  {
    seq(|calls|, i requires 0 <= i < |calls| => ToolBlockOf(calls[i].id, calls[i].name, calls[i].arguments))
  }

  function Speeches(thinking: string, content: string): seq<Block> {
    (if thinking != "" then [ThinkingBlock(thinking)] else []) + (if content != "" then [TextBlock(content)] else [])
  }

  lemma BlocksConcat(a: seq<ContentBlock>, b: seq<ContentBlock>)
    ensures BlocksOf(a + b) == BlocksOf(a) + BlocksOf(b)
  {
  }

  lemma BlocksOfContent(r: Chunk)
    ensures BlocksOf(ContentOf(r)) == Speeches(r.thinking, r.content) + ToolBlocks(r.calls)
  {
    var a := if r.thinking != "" then [Thinking(r.thinking)] else [];
    var b := if r.content != "" then [Text(r.content)] else [];
    BlocksConcat(a, b);
    BlocksConcat(a + b, ToolUses(r.calls));
    assert BlocksOf(ToolUses(r.calls)) == ToolBlocks(r.calls);
  }

  // ---- The layout of thinking, then text, then calls ----

  /** Items kept of chunks without calls, thinking first. */
  ghost predicate SpeechOnly(kept: seq<Item>, said: string, text: string) {
    && Layout(kept) == Speeches(said, text)
    && Sent(kept) == {}
    && (text == "" ==> if said == "" then kept == [] else EndsThinking(kept))
    && (text != "" ==> EndsSpeaking(kept))
  }

  /** Items kept of phase-ordered chunks, and what was said in them. */
  ghost predicate Phased(kept: seq<Item>, said: string, text: string, calls: seq<ToolCall>) {
    && Layout(kept) == Speeches(said, text) + ToolBlocks(FirstEncodable({}, calls))
    && Sent(kept) == EncodedIds(calls)
    && (calls == [] ==> SpeechOnly(kept, said, text))
  }

  lemma NoCallsYet(kept: seq<Item>, said: string, text: string)
    requires SpeechOnly(kept, said, text)
    ensures Phased(kept, said, text, [])
  {
    assert Speeches(said, text) + [] == Speeches(said, text);
  }

  lemma MoreThinking(kept: seq<Item>, said: string, more: string)
    requires SpeechOnly(kept, said, "") && more != ""
    ensures SpeechOnly(Add(kept, Thought(more)), said + more, "")
  {
    SentSnoc(kept, Thought(more));
    LayoutSnoc(kept, Thought(more));
    if said == "" {
      assert said + more == more;
    }
  }

  lemma TextLast(said: string, text: string)
    requires text != ""
    ensures var blocks, front := Speeches(said, text), Speeches(said, "");
            && blocks == front + [TextBlock(text)]
            && blocks[..|blocks| - 1] == front && blocks[|blocks| - 1] == TextBlock(text)
  {
  }

  lemma FirstText(kept: seq<Item>, said: string, more: string)
    requires SpeechOnly(kept, said, "") && more != ""
    ensures SpeechOnly(Add(kept, Words(more)), said, more)
  {
    SentSnoc(kept, Words(more));
    LayoutSnoc(kept, Words(more));
    TextLast(said, more);
  }

  lemma MoreText(kept: seq<Item>, said: string, text: string, more: string)
    requires SpeechOnly(kept, said, text) && text != "" && more != ""
    ensures SpeechOnly(Add(kept, Words(more)), said, text + more)
  {
    SentSnoc(kept, Words(more));
    LayoutSnoc(kept, Words(more));
    TextLast(said, text);
    TextLast(said, text + more);
  }

  lemma SpokenText(kept: seq<Item>, said: string, text: string, more: string)
    requires SpeechOnly(kept, said, text) && more != ""
    ensures SpeechOnly(Add(kept, Words(more)), said, text + more)
  {
    if text == "" {
      FirstText(kept, said, more);
      assert text + more == more;
    } else {
      MoreText(kept, said, text, more);
    }
  }

  lemma ToolBlocksSnoc(calls: seq<ToolCall>, t: ToolCall)
    ensures ToolBlocks(calls + [t]) == ToolBlocks(calls) + [ToolBlockOf(t.id, t.name, t.arguments)]
  {
  }

  lemma PhasedUse(kept: seq<Item>, said: string, text: string, calls: seq<ToolCall>, t: ToolCall)
    requires Phased(kept, said, text, calls)
    ensures Phased(Add(kept, Use(t)), said, text, calls + [t])
  {
    SentSnoc(kept, Use(t));
    LayoutSnoc(kept, Use(t));
    FirstSnoc(calls, t);
    EncodedConcat(calls, [t]);
    EncodedOne(t);
    ToolBlocksSnoc(FirstEncodable({}, calls), t);
  }

  lemma {:induction false} PhasedUses(kept: seq<Item>, said: string, text: string, before: seq<ToolCall>,
                                      calls: seq<ToolCall>)
    requires Phased(kept, said, text, before)
    ensures Phased(AddAll(kept, Uses(calls)), said, text, before + calls)
  {
    if calls == [] {
      assert before + calls == before;
    } else {
      var n := |calls| - 1;
      var front, t := calls[..n], calls[n];
      var all := before + front;
      assert before + calls == all + [t] && calls == front + [t];
      PhasedUses(kept, said, text, before, front);
      PhasedUse(AddAll(kept, Uses(front)), said, text, all, t);
      UsesSnoc(kept, front, t);
    }
  }

  lemma PhasedChunk(kept: seq<Item>, said: string, text: string, calls: seq<ToolCall>, r: Chunk)
    requires Phased(kept, said, text, calls)
    requires r.thinking != "" ==> text == "" && calls == []
    requires r.content != "" ==> calls == []
    ensures Phased(AddAll(kept, Spoken(r.thinking, r.content) + Uses(r.calls)),
                   said + r.thinking, text + r.content, calls + r.calls)
  {
    var thought := if r.thinking != "" then Add(kept, Thought(r.thinking)) else kept;
    var spoken := if r.content != "" then Add(thought, Words(r.content)) else thought;
    assert said + "" == said && text + "" == text;
    if r.thinking != "" {
      MoreThinking(kept, said, r.thinking);
      NoCallsYet(thought, said + r.thinking, "");
    }
    if r.content != "" {
      SpokenText(thought, said + r.thinking, text, r.content);
      NoCallsYet(spoken, said + r.thinking, text + r.content);
    }
    SpokenItems(kept, r.thinking, r.content);
    PhasedUses(spoken, said + r.thinking, text + r.content, calls, r.calls);
    AddConcat(kept, Spoken(r.thinking, r.content), Uses(r.calls));
  }

  lemma {:induction false} NoContentSaid(chunks: seq<Chunk>)
    ensures AllContent(chunks) == "" <==> forall i :: 0 <= i < |chunks| ==> chunks[i].content == ""
  {
    if chunks != [] {
      var n := |chunks| - 1;
      var before, r := chunks[..n], chunks[n];
      assert chunks == before + [r];
      NoContentSaid(before);
    }
  }

  lemma {:induction false} NoCallsMade(chunks: seq<Chunk>)
    ensures AllCalls(chunks) == [] <==> forall i :: 0 <= i < |chunks| ==> chunks[i].calls == []
  {
    if chunks != [] {
      var n := |chunks| - 1;
      var before, r := chunks[..n], chunks[n];
      assert chunks == before + [r];
      NoCallsMade(before);
    }
  }

  lemma PhaseSnoc(before: seq<Chunk>, r: Chunk)
    requires PhaseOrdered(before + [r])
    ensures PhaseOrdered(before)
    ensures r.thinking != "" ==> AllContent(before) == "" && AllCalls(before) == []
    ensures r.content != "" ==> AllCalls(before) == []
  {
    var all := before + [r];
    NoContentSaid(before);
    NoCallsMade(before);
    forall i | 0 <= i < |before|
      ensures r.thinking != "" ==> before[i].content == "" && before[i].calls == []
      ensures r.content != "" ==> before[i].calls == []
    {
      assert all[i] == before[i] && all[|before|] == r;
    }
    assert forall i :: 0 <= i < |before| ==> before[i] == all[i];
  }

  lemma {:induction false} PhaseLayout(chunks: seq<Chunk>)
    requires PhaseOrdered(chunks)
    ensures Phased(AddAll([], Items(chunks)), AllThinking(chunks), AllContent(chunks), AllCalls(chunks))
  {
    if chunks != [] {
      var n := |chunks| - 1;
      var before, r := chunks[..n], chunks[n];
      assert chunks == before + [r];
      PhaseSnoc(before, r);
      PhaseLayout(before);
      PhasedChunk(AddAll([], Items(before)), AllThinking(before), AllContent(before), AllCalls(before), r);
      AddConcat([], Items(before), Spoken(r.thinking, r.content) + Uses(r.calls));
    }
  }

  lemma PhaseAdmissible(chunks: seq<Chunk>)
    requires PhaseOrdered(chunks)
    ensures Admissible(chunks)
  {
    forall j | 0 <= j < |chunks| ensures !OpensThinkingInText(chunks, j) {
      if TextLeftOpen(chunks[..j]) {
        var i :| 0 <= i < j && TextOpenSince(chunks[..j], i);
        assert chunks[i].content != "";
      }
    }
  }

  // ---- The stream gives the answer ----

  /** The merged answer with only the first encodable call of each tool id. */
  function Delivered(chunks: seq<Chunk>): Chunk
    requires |chunks| > 0
  {
    Merged(chunks).(calls := FirstEncodable({}, AllCalls(chunks)))
  }

  /** A phase-ordered stream folds to the blocks, stop reason and usage that the non-streaming
      conversion gives for the merged answer with its deliverable calls. */
  lemma StreamAgreesWithResponse(c: Converter, chunks: seq<Chunk>)
    requires c == NewConverter(c.id, c.model, c.estimatedInputTokens)
    requires DoneLast(chunks) && PhaseOrdered(chunks)
    ensures ReceiveAll(Waiting, Run(c, chunks).events) == Answer(Delivered(chunks))
  {
    PhaseAdmissible(chunks);
    AdmissibleStreamHolds(c, chunks);
    PhaseLayout(chunks);
    BlocksOfContent(Delivered(chunks));
    SentExactlyWhenDelivered(AllCalls(chunks));
  }

  lemma SentExactlyWhenDelivered(calls: seq<ToolCall>)
    ensures EncodedIds(calls) != {} <==> |FirstEncodable({}, calls)| > 0
  {
    FirstEncodableOnce({}, calls);
    var first := FirstEncodable({}, calls);
    assert EncodedIds(first) == EncodedIds(calls);
    if |first| > 0 {
      assert first[0].id in EncodedIds(first);
    }
  }

  /** The stream gives exactly the non-streaming answer, block for block, if and only if every
      call encodes and no id repeats. */
  lemma StreamIsResponseExactlyWhen(c: Converter, chunks: seq<Chunk>)
    requires c == NewConverter(c.id, c.model, c.estimatedInputTokens)
    requires DoneLast(chunks) && PhaseOrdered(chunks)
    ensures ReceiveAll(Waiting, Run(c, chunks).events) == Answer(Merged(chunks)) <==>
            DistinctEncodable(AllCalls(chunks))
  {
    var r, d := Merged(chunks), Delivered(chunks);
    StreamAgreesWithResponse(c, chunks);
    BlocksOfContent(r);
    BlocksOfContent(d);
    NothingDropped(r.calls);
    if Answer(d) == Answer(r) {
      assert |BlocksOf(ContentOf(d))| == |BlocksOf(ContentOf(r))|;
    }
  }

  lemma OneOfTwo(a: ToolCall, b: ToolCall)
    requires a.Encodable() && (!b.Encodable() || b.id == a.id)
    ensures FirstEncodable({}, [a, b]) == [a]
  {
    assert [a, b] == [a] + [b] && [a] == [] + [a];
    FirstSnoc([], a);
    EncodedOne(a);
    FirstSnoc([a], b);
  }

  lemma MergedOne(r: Chunk)
    ensures Merged([r]) == r && AllCalls([r]) == r.calls
  {
    assert [r][..0] == [];
    assert AllCalls([r]) == [] + r.calls == r.calls;
    assert AllThinking([r]) == "" + r.thinking == r.thinking && AllContent([r]) == "" + r.content == r.content;
  }

  /** One chunk with two calls of which the second does not encode, or repeats the first's id: the
      client gets one tool block where the answer has two. */
  lemma SecondCallIsLost(c: Converter, m: Metrics, a: ToolCall, b: ToolCall)
    requires c == NewConverter(c.id, c.model, c.estimatedInputTokens)
    requires a.Encodable() && (!b.Encodable() || b.id == a.id)
    ensures var r := Chunk("", "", [a, b], true, "stop", "", m, None);
            var k := ReceiveAll(Waiting, Run(c, [r]).events);
            && k.Complete? && k.blocks == [ToolBlock(a.id, a.name, a.arguments.json.value)]
            && |Answer(r).blocks| == 2 && Answer(r).blocks[0] == k.blocks[0]
  {
    var r := Chunk("", "", [a, b], true, "stop", "", m, None);
    StreamAgreesWithResponse(c, [r]);
    MergedOne(r);
    OneOfTwo(a, b);
    BlocksOfContent(r);
    BlocksOfContent(Delivered([r]));
    ToolBlocksSnoc([], a);
    assert [] + [a] == [a];
  }
}
