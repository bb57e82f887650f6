/** When a stream that ends with its one Done chunk is well formed. */
module StreamTheorems {
  import opened Options
  import opened Messages
  import opened StreamConverter
  import opened StreamInput
  import opened StreamClient
  import StreamGrammar
  import opened StreamRuns

  // ---- The converter's flags describe the client's state ----

  ghost predicate Live(c: Converter, k: Client) {
    && !c.firstWrite
    && k.Receiving?
    && c.contentIndex == |k.blocks|
    && !(c.textStarted && c.ThinkingOpen())
    && (c.textStarted <==> k.open.Some? && k.open.value.TextBlock?)
    && (c.ThinkingOpen() <==> k.open.Some? && k.open.value.ThinkingBlock?)
    && (k.open.Some? ==> k.open.value.TextBlock? || k.open.value.ThinkingBlock?)
  }

  ghost predicate Linked(c: Converter, k: Client) {
    if c.firstWrite then k == Waiting && c == NewConverter(c.id, c.model, c.estimatedInputTokens) else Live(c, k)
  }

  /** All blocks the client holds, the open one last. */
  function View(k: Client): seq<Block>
    requires k.Waiting? || k.Receiving?
  {
    if k.Waiting? then [] else k.blocks + (if k.open.Some? then [k.open.value] else [])
  }

  lemma ReceiveOne(k: Client, e: Event)
    ensures ReceiveAll(k, [e]) == Receive(k, e)
  {
    assert [e][..0] == [];
  }

  lemma ReceiveTwo(k: Client, d: Event, e: Event)
    ensures ReceiveAll(k, [d, e]) == Receive(Receive(k, d), e)
  {
    assert [d, e][..1] == [d];
    ReceiveOne(k, d);
  }

  lemma BeginLinks(c: Converter, r: Chunk, k: Client)
    requires Linked(c, k)
    ensures var k' := ReceiveAll(k, Begin(c, r).events);
            Live(Begin(c, r).c, k') && View(k') == View(k)
  {
    if c.firstWrite {
      ReceiveOne(k, Begin(c, r).events[0]);
    }
  }

  lemma ThinkMore(c: Converter, thinking: string, k: Client)
    requires Live(c, k) && c.ThinkingOpen()
    ensures var k' := Receive(k, BlockDelta(c.contentIndex, ThinkingDelta(thinking)));
            Live(c, k') && View(k') == k.blocks + [ThinkingBlock(k.open.value.text + thinking)]
  {
  }

  lemma ThinkFirst(c: Converter, thinking: string, k: Client)
    requires Live(c, k) && !c.thinkingStarted && !c.thinkingDone
    ensures var k1 := Receive(k, BlockStart(c.contentIndex, ThinkingKind));
            var k' := Receive(k1, BlockDelta(c.contentIndex, ThinkingDelta(thinking)));
            if c.textStarted then k' == Broken
            else Live(c.(thinkingStarted := true), k') && View(k') == View(k) + [ThinkingBlock(thinking)]
  {
    assert "" + thinking == thinking;
  }

  /** Thinking extends the open thinking block, opens one, or (text being open) breaks the stream. */
  lemma ThinkLinks(c: Converter, thinking: string, k: Client)
    requires Live(c, k)
    ensures var k', quiet := ReceiveAll(k, Think(c, thinking).events), thinking == "" || c.thinkingDone;
            if !quiet && !c.thinkingStarted && c.textStarted then k' == Broken
            else && Live(Think(c, thinking).c, k')
                 && View(k') == if quiet then View(k)
                                else if c.thinkingStarted
                                then k.blocks + [ThinkingBlock(k.open.value.text + thinking)]
                                else View(k) + [ThinkingBlock(thinking)]
  {
    if thinking != "" && !c.thinkingDone {
      var delta := BlockDelta(c.contentIndex, ThinkingDelta(thinking));
      if c.thinkingStarted {
        assert Think(c, thinking).events == [delta];
        ReceiveOne(k, delta);
        ThinkMore(c, thinking, k);
      } else {
        var start := BlockStart(c.contentIndex, ThinkingKind);
        assert Think(c, thinking).events == [start, delta];
        ReceiveTwo(k, start, delta);
        ThinkFirst(c, thinking, k);
      }
    }
  }

  lemma CloseThinkingLinks(c: Converter, k: Client)
    requires Live(c, k)
    ensures var o := CloseThinking(c);
            var k' := ReceiveAll(k, o.events);
            Live(o.c, k') && View(k') == View(k) && !o.c.ThinkingOpen() && o.c.textStarted == c.textStarted
  {
    ReceiveOne(k, BlockStop(c.contentIndex));
  }

  lemma CloseTextLinks(c: Converter, k: Client)
    requires Live(c, k)
    ensures var o := CloseText(c);
            var k' := ReceiveAll(k, o.events);
            Live(o.c, k') && View(k') == View(k) && !o.c.textStarted && o.c.ThinkingOpen() == c.ThinkingOpen()
  {
    ReceiveOne(k, BlockStop(c.contentIndex));
  }

  lemma TextLinks(c: Converter, content: string, k: Client)
    requires Live(c, k) && !c.ThinkingOpen() && content != ""
    ensures var k' := ReceiveAll(k, (if c.textStarted then [] else [BlockStart(c.contentIndex, TextKind)])
                                    + [BlockDelta(c.contentIndex, TextDelta(content))]);
            && Live(c.(textStarted := true), k')
            && View(k') == if c.textStarted then k.blocks + [TextBlock(k.open.value.text + content)]
                           else View(k) + [TextBlock(content)]
  {
    var start := BlockStart(c.contentIndex, TextKind);
    var delta := BlockDelta(c.contentIndex, TextDelta(content));
    if c.textStarted {
      assert [] + [delta] == [delta];
      ReceiveOne(k, delta);
    } else {
      assert [start] + [delta] == [start, delta];
      ReceiveTwo(k, start, delta);
      assert "" + content == content;
    }
  }

  lemma WriteLinks(c: Converter, content: string, k: Client)
    requires Live(c, k)
    ensures var k' := ReceiveAll(k, Write(c, content).events);
            && Live(Write(c, content).c, k')
            && View(k') == if content == "" then View(k)
                           else if c.textStarted then k.blocks + [TextBlock(k.open.value.text + content)]
                           else View(k) + [TextBlock(content)]
  {
    if content != "" {
      var o := CloseThinking(c);
      CloseThinkingLinks(c, k);
      TextLinks(o.c, content, ReceiveAll(k, o.events));
      var text := (if o.c.textStarted then [] else [BlockStart(o.c.contentIndex, TextKind)])
        + [BlockDelta(o.c.contentIndex, TextDelta(content))];
      assert Write(c, content).events == o.events + text;
      ReceiveConcat(k, o.events, text);
    }
  }

  lemma ToolLinks(c: Converter, t: ToolCall, k: Client)
    requires Live(c, k) && k.open.None? && t.Encodable()
    ensures var k' := ReceiveAll(k, ToolEvents(c.contentIndex, t));
            k' == Receiving(k.blocks + [ToolBlock(t.id, t.name, t.arguments.json.value)], None)
  {
    var e := ToolEvents(c.contentIndex, t);
    assert e == [e[0], e[1]] + [e[2]];
    ReceiveConcat(k, [e[0], e[1]], [e[2]]);
    ReceiveTwo(k, e[0], e[1]);
    ReceiveOne(ReceiveAll(k, [e[0], e[1]]), e[2]);
    assert "" + t.arguments.json.value == t.arguments.json.value;
  }

  lemma CallLinks(c: Converter, t: ToolCall, k: Client)
    requires Live(c, k)
    ensures var k' := ReceiveAll(k, Call(c, t).events);
            && Live(Call(c, t).c, k')
            && View(k') == View(k) + (if t.Encodable() && t.id !in c.toolCallsSent
                                      then [ToolBlock(t.id, t.name, t.arguments.json.value)] else [])
  {
    if t.id !in c.toolCallsSent {
      var a := CloseThinking(c);
      var b := CloseText(a.c);
      var k1 := ReceiveAll(k, a.events);
      var k2 := ReceiveAll(k1, b.events);
      CloseThinkingLinks(c, k);
      CloseTextLinks(a.c, k1);
      ReceiveConcat(k, a.events, b.events);
      if t.Encodable() {
        ReceiveConcat(k, a.events + b.events, ToolEvents(b.c.contentIndex, t));
        ToolLinks(b.c, t, k2);
      }
    }
  }

  lemma {:induction false} CallsLink(c: Converter, calls: seq<ToolCall>, k: Client)
    requires Live(c, k)
    ensures var k' := ReceiveAll(k, Calls(c, calls).events);
            Live(Calls(c, calls).c, k')
  {
    if calls != [] {
      var n := |calls| - 1;
      var before, t := calls[..n], calls[n];
      var p := Calls(c, before);
      CallsLink(c, before, k);
      CallLinks(p.c, t, ReceiveAll(k, p.events));
      ReceiveConcat(k, p.events, Call(p.c, t).events);
    }
  }

  lemma FinishLinks(c: Converter, r: Chunk, k: Client)
    requires Live(c, k) && r.done
    ensures ReceiveAll(k, Finish(c, r).events) ==
            Complete(View(k), MapStopReason(r.doneReason, c.toolCallsSent != {}, r.stopSequence), r.stopSequence,
                     UsageFromMetrics(r.metrics).(compression := r.compression))
  {
    var stop := if c.textStarted || c.ThinkingOpen() then [BlockStop(c.contentIndex)] else [];
    var events := Finish(c, r).events;
    var d, e := events[|stop|], events[|stop| + 1];
    assert events == stop + [d, e];
    ReceiveConcat(k, stop, [d, e]);
    ReceiveOne(k, BlockStop(c.contentIndex));
    ReceiveTwo(ReceiveAll(k, stop), d, e);
  }

  // ---- One chunk, before its closing stage ----

  /** The guard of the branch that breaks the stream. */
  predicate Misplaced(c: Converter, r: Chunk) {
    r.thinking != "" && !c.thinkingDone && !c.thinkingStarted && c.textStarted
  }

  lemma SpeechLinks(c: Converter, r: Chunk, k: Client)
    requires Linked(c, k)
    ensures var k' := ReceiveAll(k, Speech(c, r).events);
            if Misplaced(c, r) then k' == Broken else Live(Speech(c, r).c, k')
  {
    var a := Begin(c, r);
    var b := Think(a.c, r.thinking);
    var d := Write(b.c, r.content);
    var k1 := ReceiveAll(k, a.events);
    var k2 := ReceiveAll(k1, b.events);
    BeginLinks(c, r, k);
    BeginKeeps(c, r);
    ReceiveConcat(k, a.events, b.events);
    ReceiveConcat(k, a.events + b.events, d.events);
    ThinkLinks(a.c, r.thinking, k1);
    if Misplaced(c, r) {
      BrokenForever(d.events);
    } else {
      WriteLinks(b.c, r.content, k2);
    }
  }

  lemma BodyLinks(c: Converter, r: Chunk, k: Client)
    requires Linked(c, k)
    ensures var k' := ReceiveAll(k, Body(c, r).events);
            if Misplaced(c, r) then k' == Broken else Live(Body(c, r).c, k')
  {
    var d := Speech(c, r);
    var e := Calls(d.c, r.calls);
    SpeechLinks(c, r, k);
    ReceiveConcat(k, d.events, e.events);
    if Misplaced(c, r) {
      BrokenForever(e.events);
    } else {
      CallsLink(d.c, r.calls, ReceiveAll(k, d.events));
    }
  }

  lemma {:induction false} UnfinishedRun(c: Converter, chunks: seq<Chunk>)
    requires c == NewConverter(c.id, c.model, c.estimatedInputTokens)
    requires NoDone(chunks)
    ensures var k := ReceiveAll(Waiting, Run(c, chunks).events);
            if Admissible(chunks) then Linked(Run(c, chunks).c, k) else k == Broken
  {
    if chunks != [] {
      var n := |chunks| - 1;
      var before, r := chunks[..n], chunks[n];
      assert chunks == before + [r];
      UnfinishedRun(c, before);
      LastChunk(c, before, r);
      assert Process(Run(c, before).c, r) == Body(Run(c, before).c, r) by {
        var b := Body(Run(c, before).c, r);
        assert b.events + [] == b.events;
      }
    }
  }

  /** The client after the body of one more chunk. */
  lemma LastChunk(c: Converter, before: seq<Chunk>, r: Chunk)
    requires c == NewConverter(c.id, c.model, c.estimatedInputTokens)
    requires var k := ReceiveAll(Waiting, Run(c, before).events);
             if Admissible(before) then Linked(Run(c, before).c, k) else k == Broken
    ensures var p := Run(c, before);
            var k := ReceiveAll(Waiting, p.events + Body(p.c, r).events);
            if Admissible(before + [r]) then Live(Body(p.c, r).c, k) else k == Broken
  {
    var p := Run(c, before);
    var b := Body(p.c, r);
    ReceiveConcat(Waiting, p.events, b.events);
    RunFlags(c, before);
    AdmissibleSnoc(before, r);
    if ThinkingClosed(before) {
      var i :| 0 <= i < |before| && ClosesThinking(before, i);
      assert HasThinking(before[..i + 1]);
    }
    if Admissible(before) {
      BodyLinks(p.c, r, ReceiveAll(Waiting, p.events));
    } else {
      BrokenForever(b.events);
    }
  }

  /** A stream that ends with its one Done chunk is well formed if and only if no chunk brings
      the first thinking while text is left open. */
  lemma WellFormedExactlyWhenAdmissible(c: Converter, chunks: seq<Chunk>)
    requires c == NewConverter(c.id, c.model, c.estimatedInputTokens)
    requires DoneLast(chunks)
    ensures WellFormed(Run(c, chunks).events) <==> Admissible(chunks)
    ensures ReceiveAll(Waiting, Run(c, chunks).events).Complete? <==> Admissible(chunks)
  {
    var n := |chunks| - 1;
    assert chunks == chunks[..n] + [chunks[n]];
    FinishedRun(c, chunks[..n], chunks[n]);
    StreamGrammar.ClientAcceptsExactlyWellFormed(Run(c, chunks).events);
  }

  lemma RunSplit(c: Converter, before: seq<Chunk>, r: Chunk)
    ensures var p := Run(c, before);
            var b := Body(p.c, r);
            Run(c, before + [r]) == Out(Finish(b.c, r).c, (p.events + b.events) + Finish(b.c, r).events)
  {
    assert (before + [r])[..|before|] == before;
    var p := Run(c, before);
    var b := Body(p.c, r);
    var f := Finish(b.c, r);
    assert p.events + (b.events + f.events) == (p.events + b.events) + f.events;
  }

  lemma FinishedRun(c: Converter, before: seq<Chunk>, r: Chunk)
    requires c == NewConverter(c.id, c.model, c.estimatedInputTokens)
    requires NoDone(before) && r.done
    ensures var k := ReceiveAll(Waiting, Run(c, before + [r]).events);
            if Admissible(before + [r]) then k.Complete? else k == Broken
  {
    UnfinishedRun(c, before);
    LastChunk(c, before, r);
    RunSplit(c, before, r);
    var p := Run(c, before);
    var b := Body(p.c, r);
    var f := Finish(b.c, r);
    ReceiveConcat(Waiting, p.events + b.events, f.events);
    if Admissible(before + [r]) {
      FinishLinks(b.c, r, ReceiveAll(Waiting, p.events + b.events));
    } else {
      BrokenForever(f.events);
    }
  }

  /** A stream that breaks the protocol: text, then the first thinking. */
  lemma ThinkingAfterTextBreaks(c: Converter, m: Metrics)
    requires c == NewConverter(c.id, c.model, c.estimatedInputTokens)
    ensures var text := Chunk("", "a", [], false, "", "", m, None);
            var late := Chunk("b", "", [], true, "stop", "", m, None);
            !WellFormed(Run(c, [text, late]).events)
  {
    var text := Chunk("", "a", [], false, "", "", m, None);
    var late := Chunk("b", "", [], true, "stop", "", m, None);
    var chunks := [text, late];
    assert chunks[..1] == [text] && [text][0..] == [text] && [text][..0] == [];
    assert TextOpenSince([text], 0);
    assert OpensThinkingInText(chunks, 1);
    WellFormedExactlyWhenAdmissible(c, chunks);
  }
}
