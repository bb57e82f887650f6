/** Whole runs of the converter, in any chunk order: its flags, and what the events say. */
module StreamRuns {
  import opened Options
  import opened Messages
  import opened StreamConverter
  import opened StreamInput

  // ---- The flags after a run are facts about its input ----

  lemma CallFlags(c: Converter, t: ToolCall)
    ensures var d, isNew := Call(c, t).c, t.id !in c.toolCallsSent;
            && d.toolCallsSent == c.toolCallsSent + EncodedIds([t])
            && d.textStarted == (c.textStarted && !isNew)
            && d.thinkingStarted == c.thinkingStarted
            && d.thinkingDone == (c.thinkingDone || (c.thinkingStarted && isNew))
            && d.firstWrite == c.firstWrite
  {
    EncodedOne(t);
  }

  lemma {:induction false} CallsFlags(c: Converter, calls: seq<ToolCall>)
    ensures var d := Calls(c, calls).c;
            && d.toolCallsSent == c.toolCallsSent + EncodedIds(calls)
            && (d.textStarted <==> c.textStarted && AllSent(calls, c.toolCallsSent))
            && d.thinkingStarted == c.thinkingStarted
            && (d.thinkingDone <==> c.thinkingDone || (c.thinkingStarted && !AllSent(calls, c.toolCallsSent)))
            && d.firstWrite == c.firstWrite
  {
    if calls != [] {
      var n := |calls| - 1;
      var before, t := calls[..n], calls[n];
      CallsFlags(c, before);
      CallFlags(Calls(c, before).c, t);
      assert calls == before + [t];
      EncodedConcat(before, [t]);
      AllSentSnoc(before, t, c.toolCallsSent);
    }
  }

  /** Calls of sent ids only, and one more. */
  lemma AllSentSnoc(calls: seq<ToolCall>, t: ToolCall, sent: set<string>)
    ensures AllSent(calls + [t], sent) <==> AllSent(calls, sent) && t.id in sent
    ensures AllSent(calls, sent) ==> EncodedIds(calls) <= sent
  {
    assert forall x :: x in calls + [t] <==> x in calls || x == t;
  }

  lemma {:induction false} RunFlags(c: Converter, chunks: seq<Chunk>)
    requires c == NewConverter(c.id, c.model, c.estimatedInputTokens)
    ensures var d := Run(c, chunks).c;
            && d.toolCallsSent == EncodedIds(AllCalls(chunks))
            && (d.textStarted <==> TextLeftOpen(chunks))
            && (d.thinkingStarted <==> HasThinking(chunks))
            && (d.thinkingDone <==> ThinkingClosed(chunks))
            && (d.firstWrite <==> chunks == [])
  {
    if chunks != [] {
      var n := |chunks| - 1;
      var before, r := chunks[..n], chunks[n];
      assert chunks == before + [r];
      RunFlags(c, before);
      BodyFlags(Run(c, before).c, r);
      Snoc(before, r);
      TextOpenSnoc(before, r);
      ThinkingSnoc(before, r);
      if ThinkingClosed(before) {
        var i :| 0 <= i < |before| && ClosesThinking(before, i);
        assert HasThinking(before[..i + 1]);
      }
    }
  }

  lemma BodyFlags(c: Converter, r: Chunk)
    ensures var d, quiet := Body(c, r).c, AllSent(r.calls, c.toolCallsSent);
            && d.toolCallsSent == c.toolCallsSent + EncodedIds(r.calls)
            && (d.textStarted <==> (c.textStarted || r.content != "") && quiet)
            && (d.thinkingStarted <==> c.thinkingStarted || (r.thinking != "" && !c.thinkingDone))
            && (d.thinkingDone <==> c.thinkingDone || (d.thinkingStarted && (r.content != "" || !quiet)))
            && !d.firstWrite
  {
    CallsFlags(Speech(c, r).c, r.calls);
  }

  // ---- What the events say, block boundaries aside ----

  datatype ToolPiece = Named(id: string, name: string) | Encoded(json: string)

  /** All text, all thinking, and the tool blocks each followed by its arguments, in order. */
  datatype Said = Said(text: string, thinking: string, tools: seq<ToolPiece>) {
    function Then(b: Said): Said {
      Said(text + b.text, thinking + b.thinking, tools + b.tools)
    }
  }

  const SILENCE := Said("", "", [])

  function Saying(e: Event): Said {
    match e
    case BlockDelta(_, TextDelta(t)) => Said(t, "", [])
    case BlockDelta(_, ThinkingDelta(t)) => Said("", t, [])
    case BlockDelta(_, JsonDelta(j)) => Said("", "", [Encoded(j)])
    case BlockStart(_, ToolKind(id, name)) => Said("", "", [Named(id, name)])
    case _ => SILENCE
  }

  function SaidIn(events: seq<Event>): Said {
    if events == [] then SILENCE
    else SaidIn(events[..|events| - 1]).Then(Saying(events[|events| - 1]))
  }

  /** The pieces of a list of encodable calls. */
  function Pieces(calls: seq<ToolCall>): seq<ToolPiece> {
    if calls == [] then []
    else
      var t := calls[|calls| - 1];
      Pieces(calls[..|calls| - 1])
      + (if t.Encodable() then [Named(t.id, t.name), Encoded(t.arguments.json.value)] else [])
  }

  lemma Unit(a: Said)
    ensures a.Then(SILENCE) == a == SILENCE.Then(a)
  {
    assert a.text + "" == a.text == "" + a.text;
    assert a.thinking + "" == a.thinking == "" + a.thinking;
    assert a.tools + [] == a.tools == [] + a.tools;
  }

  lemma Associate(a: Said, b: Said, c: Said)
    ensures a.Then(b).Then(c) == a.Then(b.Then(c))
  {
    assert a.text + b.text + c.text == a.text + (b.text + c.text);
    assert a.thinking + b.thinking + c.thinking == a.thinking + (b.thinking + c.thinking);
    assert a.tools + b.tools + c.tools == a.tools + (b.tools + c.tools);
  }

  lemma {:induction false} SaidConcat(a: seq<Event>, b: seq<Event>)
    ensures SaidIn(a + b) == SaidIn(a).Then(SaidIn(b))
    decreases |b|
  {
    if b == [] {
      assert a + b == a;
      Unit(SaidIn(a));
    } else {
      var n := |b| - 1;
      assert (a + b)[..|a + b| - 1] == a + b[..n];
      SaidConcat(a, b[..n]);
      Associate(SaidIn(a), SaidIn(b[..n]), Saying(b[n]));
    }
  }

  lemma SaidOne(e: Event)
    ensures SaidIn([e]) == Saying(e)
  {
    assert [e][..0] == [];
    Unit(Saying(e));
  }

  lemma SaidTwo(d: Event, e: Event)
    ensures SaidIn([d, e]) == Saying(d).Then(Saying(e))
  {
    assert [d, e] == [d] + [e];
    SaidConcat([d], [e]);
    SaidOne(d);
    SaidOne(e);
  }

  /** Silent events before others change nothing. */
  lemma SilentFirst(a: seq<Event>, b: seq<Event>)
    requires SaidIn(a) == SILENCE
    ensures SaidIn(a + b) == SaidIn(b)
  {
    SaidConcat(a, b);
    Unit(SaidIn(b));
  }

  lemma BeginSays(c: Converter, r: Chunk)
    ensures SaidIn(Begin(c, r).events) == SILENCE
  {
    if c.firstWrite {
      SaidOne(Begin(c, r).events[0]);
    }
  }

  lemma ThinkSays(c: Converter, thinking: string)
    ensures SaidIn(Think(c, thinking).events) == Said("", if c.thinkingDone then "" else thinking, [])
  {
    if thinking != "" && !c.thinkingDone {
      var start := if c.thinkingStarted then [] else [BlockStart(c.contentIndex, ThinkingKind)];
      var delta := BlockDelta(c.contentIndex, ThinkingDelta(thinking));
      SaidOne(BlockStart(c.contentIndex, ThinkingKind));
      SilentFirst(start, [delta]);
      SaidOne(delta);
    }
  }

  lemma ClosingSays(c: Converter)
    ensures SaidIn(CloseThinking(c).events) == SaidIn(CloseText(c).events) == SILENCE
  {
    SaidOne(BlockStop(c.contentIndex));
  }

  lemma WriteSays(c: Converter, content: string)
    ensures SaidIn(Write(c, content).events) == Said(content, "", [])
  {
    if content != "" {
      var closed := CloseThinking(c);
      var start := if closed.c.textStarted then [] else [BlockStart(closed.c.contentIndex, TextKind)];
      var delta := BlockDelta(closed.c.contentIndex, TextDelta(content));
      ClosingSays(c);
      SaidOne(BlockStart(closed.c.contentIndex, TextKind));
      SilentFirst(closed.events, start);
      SilentFirst(closed.events + start, [delta]);
      SaidOne(delta);
    }
  }

  lemma ToolSays(index: int, t: ToolCall)
    requires t.Encodable()
    ensures SaidIn(ToolEvents(index, t)) == Said("", "", [Named(t.id, t.name), Encoded(t.arguments.json.value)])
  {
    var e := ToolEvents(index, t);
    assert e == [e[0], e[1]] + [e[2]];
    SaidConcat([e[0], e[1]], [e[2]]);
    SaidTwo(e[0], e[1]);
    SaidOne(e[2]);
    Unit(SaidIn([e[0], e[1]]));
  }

  lemma CallSays(c: Converter, t: ToolCall)
    ensures SaidIn(Call(c, t).events) ==
            Said("", "", if t.Encodable() && t.id !in c.toolCallsSent
                         then [Named(t.id, t.name), Encoded(t.arguments.json.value)] else [])
  {
    if t.id !in c.toolCallsSent {
      var a := CloseThinking(c);
      var b := CloseText(a.c);
      ClosingSays(c);
      ClosingSays(a.c);
      SilentFirst(a.events, b.events);
      if t.Encodable() {
        SilentFirst(a.events + b.events, ToolEvents(b.c.contentIndex, t));
        ToolSays(b.c.contentIndex, t);
      }
    }
  }

  lemma {:induction false} CallsSay(c: Converter, calls: seq<ToolCall>)
    ensures SaidIn(Calls(c, calls).events) == Said("", "", Pieces(FirstEncodable(c.toolCallsSent, calls)))
  {
    if calls != [] {
      var n := |calls| - 1;
      var p, t := Calls(c, calls[..n]), calls[n];
      CallsSay(c, calls[..n]);
      CallsFlags(c, calls[..n]);
      CallSays(p.c, t);
      SaidPieces(p.events, Call(p.c, t).events, FirstEncodable(c.toolCallsSent, calls[..n]), t,
                 t.Encodable() && t.id !in p.c.toolCallsSent);
    }
  }

  /** Events of the calls sent so far, then those of one more call or of none. */
  lemma SaidPieces(a: seq<Event>, b: seq<Event>, first: seq<ToolCall>, t: ToolCall, sent: bool)
    requires sent ==> t.Encodable()
    requires SaidIn(a) == Said("", "", Pieces(first))
    requires SaidIn(b) == Said("", "", if sent then [Named(t.id, t.name), Encoded(t.arguments.json.value)] else [])
    ensures SaidIn(a + b) == Said("", "", Pieces(first + if sent then [t] else []))
  {
    SaidConcat(a, b);
    PiecesSnoc(first, t);
    assert first + [] == first && Pieces(first) + [] == Pieces(first);
  }

  lemma PiecesSnoc(calls: seq<ToolCall>, t: ToolCall)
    ensures t.Encodable() ==>
              Pieces(calls + [t]) == Pieces(calls) + [Named(t.id, t.name), Encoded(t.arguments.json.value)]
  {
    assert (calls + [t])[..|calls|] == calls;
  }

  lemma {:induction false} PiecesConcat(a: seq<ToolCall>, b: seq<ToolCall>)
    ensures Pieces(a + b) == Pieces(a) + Pieces(b)
    decreases |b|
  {
    if b == [] {
      assert a + b == a;
    } else {
      assert (a + b)[..|a + b| - 1] == a + b[..|b| - 1];
      PiecesConcat(a, b[..|b| - 1]);
    }
  }

  lemma FinishSays(c: Converter, r: Chunk)
    ensures SaidIn(Finish(c, r).events) == SILENCE
  {
    if r.done {
      var stop := if c.textStarted || c.ThinkingOpen() then [BlockStop(c.contentIndex)] else [];
      var events := Finish(c, r).events;
      var d, e := events[|stop|], events[|stop| + 1];
      SaidOne(BlockStop(c.contentIndex));
      SilentFirst(stop, [d, e]);
      SaidTwo(d, e);
      Unit(SILENCE);
    }
  }

  lemma JoinSpeech(a: seq<Event>, b: seq<Event>, d: seq<Event>, thinking: string, content: string)
    requires SaidIn(a) == SILENCE && SaidIn(b) == Said("", thinking, []) && SaidIn(d) == Said(content, "", [])
    ensures SaidIn(a + b + d) == Said(content, thinking, [])
  {
    SilentFirst(a, b);
    SaidConcat(a + b, d);
    assert thinking + "" == thinking && "" + content == content;
  }

  lemma SpeechSays(c: Converter, r: Chunk)
    ensures SaidIn(Speech(c, r).events) == Said(r.content, if c.thinkingDone then "" else r.thinking, [])
  {
    var a := Begin(c, r);
    BeginKeeps(c, r);
    var b := Think(a.c, r.thinking);
    BeginSays(c, r);
    ThinkSays(a.c, r.thinking);
    WriteSays(b.c, r.content);
    JoinSpeech(a.events, b.events, Write(b.c, r.content).events, if c.thinkingDone then "" else r.thinking, r.content);
  }

  lemma BeginKeeps(c: Converter, r: Chunk)
    ensures var a := Begin(c, r).c;
            a.thinkingDone == c.thinkingDone && a.thinkingStarted == c.thinkingStarted && a.textStarted == c.textStarted
            && a.toolCallsSent == c.toolCallsSent
  {
  }

  lemma JoinTools(a: seq<Event>, b: seq<Event>, text: string, thinking: string, tools: seq<ToolPiece>)
    requires SaidIn(a) == Said(text, thinking, []) && SaidIn(b) == Said("", "", tools)
    ensures SaidIn(a + b) == Said(text, thinking, tools)
  {
    SaidConcat(a, b);
    assert text + "" == text && thinking + "" == thinking && [] + tools == tools;
  }

  lemma SilentLast(a: seq<Event>, b: seq<Event>)
    requires SaidIn(b) == SILENCE
    ensures SaidIn(a + b) == SaidIn(a)
  {
    SaidConcat(a, b);
    Unit(SaidIn(a));
  }

  lemma ProcessSays(c: Converter, r: Chunk)
    ensures SaidIn(Process(c, r).events) ==
            Said(r.content, if c.thinkingDone then "" else r.thinking, Pieces(FirstEncodable(c.toolCallsSent, r.calls)))
  {
    var d := Speech(c, r);
    var e := Calls(d.c, r.calls);
    SpeechSays(c, r);
    SpeechKeepsSent(c, r);
    CallsSay(d.c, r.calls);
    JoinTools(d.events, e.events, r.content, if c.thinkingDone then "" else r.thinking,
              Pieces(FirstEncodable(c.toolCallsSent, r.calls)));
    FinishSays(e.c, r);
    SilentLast(d.events + e.events, Finish(e.c, r).events);
  }

  lemma SpeechKeepsSent(c: Converter, r: Chunk)
    ensures Speech(c, r).c.toolCallsSent == c.toolCallsSent
  {
  }

  /** In any chunk order: the text deltas join to the content, the thinking deltas to the
      thinking received until its block closed, and the tool blocks are the first encodable
      calls of each id, each followed by its encoded arguments. */
  lemma {:induction false} RunSays(c: Converter, chunks: seq<Chunk>)
    requires c == NewConverter(c.id, c.model, c.estimatedInputTokens)
    ensures SaidIn(Run(c, chunks).events) ==
            Said(AllContent(chunks), KeptThinking(chunks), Pieces(FirstEncodable({}, AllCalls(chunks))))
  {
    if chunks != [] {
      var n := |chunks| - 1;
      var before, r := chunks[..n], chunks[n];
      var p := Run(c, before);
      RunSays(c, before);
      RunFlags(c, before);
      ProcessSays(p.c, r);
      SaidConcat(p.events, Process(p.c, r).events);
      FirstEncodableConcat({}, AllCalls(before), r.calls);
      assert {} + EncodedIds(AllCalls(before)) == EncodedIds(AllCalls(before));
      PiecesConcat(FirstEncodable({}, AllCalls(before)), FirstEncodable(EncodedIds(AllCalls(before)), r.calls));
    }
  }

  /** The ids of the tool blocks started, in order. */
  function StartedIds(pieces: seq<ToolPiece>): seq<string> {
    if pieces == [] then []
    else
      var p := pieces[|pieces| - 1];
      StartedIds(pieces[..|pieces| - 1]) + (if p.Named? then [p.id] else [])
  }

  lemma {:induction false} IdsOfPieces(calls: seq<ToolCall>)
    requires forall i :: 0 <= i < |calls| ==> calls[i].Encodable()
    ensures |StartedIds(Pieces(calls))| == |calls|
    ensures forall i :: 0 <= i < |calls| ==> StartedIds(Pieces(calls))[i] == calls[i].id
  {
    if calls != [] {
      var n := |calls| - 1;
      IdsOfPieces(calls[..n]);
      var all, before := Pieces(calls), Pieces(calls[..n]);
      assert all[..|all| - 1] == before + [Named(calls[n].id, calls[n].name)];
      assert (before + [Named(calls[n].id, calls[n].name)])[..|before|] == before;
    }
  }

  /** Each encodable tool id appears as a tool block exactly once, and no other id does. */
  lemma ToolIdsOnce(c: Converter, chunks: seq<Chunk>)
    requires c == NewConverter(c.id, c.model, c.estimatedInputTokens)
    ensures var ids := StartedIds(SaidIn(Run(c, chunks).events).tools);
            && (forall i, j :: 0 <= i < j < |ids| ==> ids[i] != ids[j])
            && (forall id :: id in ids <==> id in EncodedIds(AllCalls(chunks)))
  {
    RunSays(c, chunks);
    var first := FirstEncodable({}, AllCalls(chunks));
    FirstEncodableOnce({}, AllCalls(chunks));
    IdsOfPieces(first);
    var ids := StartedIds(Pieces(first));
    forall id ensures id in ids <==> id in EncodedIds(first) {
      if id in ids {
        var i :| 0 <= i < |ids| && ids[i] == id;
        assert first[i] in first;
      }
      if id in EncodedIds(first) {
        var t :| t in first && t.id == id;
        var i :| 0 <= i < |first| && first[i] == t;
        assert ids[i] == id;
      }
    }
  }

  /** Every stream starts with the converter's identity and the first chunk's usage, with no
      output yet, or the estimate when that chunk reports no prompt tokens at all. */
  lemma {:induction false} FirstEvent(c: Converter, chunks: seq<Chunk>)
    requires c == NewConverter(c.id, c.model, c.estimatedInputTokens) && chunks != []
    ensures var u, events := UsageFromMetrics(chunks[0].metrics), Run(c, chunks).events;
            && events != [] && events[0].MessageStart? && events[0].id == c.id && events[0].model == c.model
            && events[0].usage ==
               if u.input == u.cacheRead == u.cacheCreation == 0 && c.estimatedInputTokens > 0
               then Usage(c.estimatedInputTokens, 0, 0, 0, None) else u.(output := 0)
  {
    var n := |chunks| - 1;
    if n > 0 {
      FirstEvent(c, chunks[..n]);
    } else {
      assert chunks[..0] == [];
    }
  }
}
