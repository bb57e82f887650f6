/**
 The converter that turns streamed chat chunks into Messages API events.
 `Converter` is its state as a value and `Process` one call on it; the class holds the same
 state in fields that each call updates, and keeps the whole run in two ghost fields.
 */
module StreamConverter {
  import opened Options
  import opened Messages

  datatype BlockKind = ThinkingKind | TextKind | ToolKind(id: string, name: string)

  datatype Delta = ThinkingDelta(text: string) | TextDelta(text: string) | JsonDelta(json: string)

  datatype Event =
    | MessageStart(id: string, model: string, usage: Usage)
    | BlockStart(index: int, kind: BlockKind)
    | BlockDelta(index: int, delta: Delta)
    | BlockStop(index: int)
    | MessageDelta(stopReason: string, stopSequence: string, usage: Usage)
    | MessageStop

  datatype Converter = Converter(
    id: string, model: string, firstWrite: bool, contentIndex: int,
    inputTokens: int, outputTokens: int, cacheReadTokens: int, cacheCreationTokens: int,
    estimatedInputTokens: int,
    thinkingStarted: bool, thinkingDone: bool, textStarted: bool, toolCallsSent: set<string>) {

    predicate ThinkingOpen() {
      thinkingStarted && !thinkingDone
    }
  }

  /** A converter together with the events it has just emitted. */
  datatype Out = Out(c: Converter, events: seq<Event>)

  function NewConverter(id: string, model: string, estimatedInputTokens: int): Converter {
    Converter(id, model, true, 0, 0, 0, 0, 0, estimatedInputTokens, false, false, false, {})
  }

  // ---- One call, stage by stage ----

  function Begin(c: Converter, r: Chunk): Out {
    if !c.firstWrite then Out(c, [])
    else
      var u := UsageFromMetrics(r.metrics);
      var input := if u.input == 0 && u.cacheRead == 0 && u.cacheCreation == 0 && c.estimatedInputTokens > 0
                   then c.estimatedInputTokens else u.input;
      Out(c.(firstWrite := false, inputTokens := input,
             cacheReadTokens := u.cacheRead, cacheCreationTokens := u.cacheCreation),
          [MessageStart(c.id, c.model, Usage(input, 0, u.cacheRead, u.cacheCreation, None))])
  }

  function Think(c: Converter, thinking: string): Out {
    if thinking == "" || c.thinkingDone then Out(c, [])
    else Out(c.(thinkingStarted := true),
             (if c.thinkingStarted then [] else [BlockStart(c.contentIndex, ThinkingKind)])
             + [BlockDelta(c.contentIndex, ThinkingDelta(thinking))])
  }

  function CloseThinking(c: Converter): Out {
    if c.ThinkingOpen() then
      Out(c.(thinkingDone := true, contentIndex := c.contentIndex + 1), [BlockStop(c.contentIndex)])
    else Out(c, [])
  }

  function CloseText(c: Converter): Out {
    if c.textStarted then
      Out(c.(textStarted := false, contentIndex := c.contentIndex + 1), [BlockStop(c.contentIndex)])
    else Out(c, [])
  }

  function Write(c: Converter, content: string): Out {
    if content == "" then Out(c, [])
    else
      var closed := CloseThinking(c);
      Out(closed.c.(textStarted := true),
          closed.events
          + (if closed.c.textStarted then [] else [BlockStart(closed.c.contentIndex, TextKind)])
          + [BlockDelta(closed.c.contentIndex, TextDelta(content))])
  }

  function ToolEvents(index: int, t: ToolCall): seq<Event>
    requires t.Encodable()
  {
    [BlockStart(index, ToolKind(t.id, t.name)), BlockDelta(index, JsonDelta(t.arguments.json.value)), BlockStop(index)]
  }

  function Call(c: Converter, t: ToolCall): Out {
    if t.id in c.toolCallsSent then Out(c, [])
    else
      var a := CloseThinking(c);
      var b := CloseText(a.c);
      if !t.Encodable() then Out(b.c, a.events + b.events)
      else Out(b.c.(toolCallsSent := b.c.toolCallsSent + {t.id}, contentIndex := b.c.contentIndex + 1),
               a.events + b.events + ToolEvents(b.c.contentIndex, t))
  }

  function Calls(c: Converter, calls: seq<ToolCall>): Out {
    if calls == [] then Out(c, [])
    else
      var n := |calls| - 1;
      var p := Calls(c, calls[..n]);
      var q := Call(p.c, calls[n]);
      Out(q.c, p.events + q.events)
  }

  function Finish(c: Converter, r: Chunk): Out {
    if !r.done then Out(c, [])
    else
      var u := UsageFromMetrics(r.metrics);
      Out(c.(inputTokens := u.input, outputTokens := u.output,
             cacheReadTokens := u.cacheRead, cacheCreationTokens := u.cacheCreation),
          (if c.textStarted || c.ThinkingOpen() then [BlockStop(c.contentIndex)] else [])
          + [MessageDelta(MapStopReason(r.doneReason, c.toolCallsSent != {}, r.stopSequence),
                          r.stopSequence, u.(compression := r.compression)),
             MessageStop])
  }

  /** The opening, thinking and text stages of a call. */
  function Speech(c: Converter, r: Chunk): Out {
    var a := Begin(c, r);
    var b := Think(a.c, r.thinking);
    var d := Write(b.c, r.content);
    Out(d.c, a.events + b.events + d.events)
  }

  /** Everything before the closing stage of a call. */
  function Body(c: Converter, r: Chunk): Out {
    var d := Speech(c, r);
    var e := Calls(d.c, r.calls);
    Out(e.c, d.events + e.events)
  }

  function Process(c: Converter, r: Chunk): Out {
    var b := Body(c, r);
    var f := Finish(b.c, r);
    Out(f.c, b.events + f.events)
  }

  /** A whole run: every chunk processed in turn, with all events emitted. */
  function Run(c: Converter, chunks: seq<Chunk>): Out {
    if chunks == [] then Out(c, [])
    else
      var n := |chunks| - 1;
      var p := Run(c, chunks[..n]);
      var q := Process(p.c, chunks[n]);
      Out(q.c, p.events + q.events)
  }

  class StreamConverter {
    const id: string
    const model: string
    const estimatedInputTokens: int
    var firstWrite: bool
    var contentIndex: int
    var inputTokens: int
    var outputTokens: int
    var cacheReadTokens: int
    var cacheCreationTokens: int
    var thinkingStarted: bool
    var thinkingDone: bool
    var textStarted: bool
    var toolCallsSent: set<string>

    ghost var seen: seq<Chunk>
    ghost var log: seq<Event>

    ghost function State(): Converter
      reads this
    {
      Converter(id, model, firstWrite, contentIndex, inputTokens, outputTokens, cacheReadTokens,
                cacheCreationTokens, estimatedInputTokens, thinkingStarted, thinkingDone, textStarted, toolCallsSent)
    }

    /** The fields and the log are those of the run over the chunks seen. */
    ghost predicate Valid()
      reads this
    {
      Run(NewConverter(id, model, estimatedInputTokens), seen) == Out(State(), log)
    }

    constructor (id: string, model: string, estimatedInputTokens: int)
      ensures Valid() && seen == [] && log == []
      ensures this.id == id && this.model == model && this.estimatedInputTokens == estimatedInputTokens
    {
      this.id, this.model, this.estimatedInputTokens := id, model, estimatedInputTokens;
      firstWrite, contentIndex := true, 0;
      inputTokens, outputTokens, cacheReadTokens, cacheCreationTokens := 0, 0, 0, 0;
      thinkingStarted, thinkingDone, textStarted, toolCallsSent := false, false, false, {};
      seen, log := [], [];
    }

    method Process(r: Chunk) returns (events: seq<Event>)
      requires Valid()
      modifies this
      ensures Valid()
      ensures seen == old(seen) + [r] && log == old(log) + events
    {
      events := StartAndThink(r);
      var text := WriteContent(r.content);
      var tools := SendCalls(r.calls);
      var final := FinishMessage(r);
      events := events + text + tools + final;
      seen, log := seen + [r], log + events;
      assert seen[..|seen| - 1] == old(seen);
    }

    method SendCalls(calls: seq<ToolCall>) returns (events: seq<Event>)
      modifies this
      ensures unchanged(`seen) && unchanged(`log)
      ensures Out(State(), events) == Calls(old(State()), calls)
    {
      events := [];
      for i := 0 to |calls|
        invariant unchanged(`seen) && unchanged(`log)
        invariant Out(State(), events) == Calls(old(State()), calls[..i])
      {
        assert calls[..i + 1][..i] == calls[..i];
        var sent := SendCall(calls[i]);
        events := events + sent;
      }
      assert calls[..|calls|] == calls;
    }

    method FinishMessage(r: Chunk) returns (events: seq<Event>)
      modifies this
      ensures unchanged(`seen) && unchanged(`log)
      ensures Out(State(), events) == Finish(old(State()), r)
    {
      events := [];
      if r.done {
        if textStarted {
          events := [BlockStop(contentIndex)];
        } else if thinkingStarted && !thinkingDone {
          events := [BlockStop(contentIndex)];
        }
        var u := UsageFromMetrics(r.metrics);
        inputTokens, outputTokens := u.input, u.output;
        cacheReadTokens, cacheCreationTokens := u.cacheRead, u.cacheCreation;
        var stopReason := MapStopReason(r.doneReason, toolCallsSent != {}, r.stopSequence);
        events := events
        + [MessageDelta(stopReason, r.stopSequence,
                        Usage(inputTokens, outputTokens, cacheReadTokens, cacheCreationTokens, r.compression)),
           MessageStop];
      }
    }

    method StartAndThink(r: Chunk) returns (events: seq<Event>)
      modifies this
      ensures unchanged(`seen) && unchanged(`log)
      ensures var a := Begin(old(State()), r);
              var b := Think(a.c, r.thinking);
              State() == b.c && events == a.events + b.events
    {
      events := [];
      if firstWrite {
        firstWrite := false;
        var u := UsageFromMetrics(r.metrics);
        inputTokens, cacheReadTokens, cacheCreationTokens := u.input, u.cacheRead, u.cacheCreation;
        if inputTokens == 0 && cacheReadTokens == 0 && cacheCreationTokens == 0 && estimatedInputTokens > 0 {
          inputTokens := estimatedInputTokens;
        }
        events := [MessageStart(id, model, Usage(inputTokens, 0, cacheReadTokens, cacheCreationTokens, None))];
      }
      if r.thinking != "" && !thinkingDone {
        if !thinkingStarted {
          thinkingStarted := true;
          events := events + [BlockStart(contentIndex, ThinkingKind)];
        }
        events := events + [BlockDelta(contentIndex, ThinkingDelta(r.thinking))];
      }
    }

    method WriteContent(content: string) returns (events: seq<Event>)
      modifies this
      ensures unchanged(`seen) && unchanged(`log)
      ensures Out(State(), events) == Write(old(State()), content)
    {
      events := [];
      if content != "" {
        if thinkingStarted && !thinkingDone {
          thinkingDone := true;
          events := [BlockStop(contentIndex)];
          contentIndex := contentIndex + 1;
        }
        if !textStarted {
          textStarted := true;
          events := events + [BlockStart(contentIndex, TextKind)];
        }
        events := events + [BlockDelta(contentIndex, TextDelta(content))];
      }
    }

    method SendCall(tc: ToolCall) returns (events: seq<Event>)
      modifies this
      ensures unchanged(`seen) && unchanged(`log)
      ensures Out(State(), events) == Call(old(State()), tc)
    {
      events := [];
      if tc.id in toolCallsSent {
        return;
      }
      events := CloseOpenBlock();
      if tc.arguments.json == None {
        return;
      }
      events := events + ToolEvents(contentIndex, tc);
      toolCallsSent := toolCallsSent + {tc.id};
      contentIndex := contentIndex + 1;
    }

    method CloseOpenBlock() returns (events: seq<Event>)
      modifies this
      ensures unchanged(`seen) && unchanged(`log)
      ensures var a := CloseThinking(old(State()));
              var b := CloseText(a.c);
              Out(State(), events) == Out(b.c, a.events + b.events)
    {
      events := [];
      if thinkingStarted && !thinkingDone {
        thinkingDone := true;
        events := [BlockStop(contentIndex)];
        contentIndex := contentIndex + 1;
      }
      if textStarted {
        events := events + [BlockStop(contentIndex)];
        contentIndex := contentIndex + 1;
        textStarted := false;
      }
    }
  }
}
