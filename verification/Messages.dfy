/**
 Chat responses and the Messages API values built from them, with the non-streaming
 conversion that the stream converter has to agree with.
 */
module Messages {
  import opened Options

  /** Tool arguments: a token for the value itself, and what `json.Marshal` makes of it
      (None when encoding fails). */
  datatype Arguments = Arguments(token: nat, json: Option<string>)

  datatype ToolCall = ToolCall(id: string, name: string, arguments: Arguments) {
    predicate Encodable() {
      arguments.json.Some?
    }
  }

  datatype Metrics = Metrics(promptEvalCount: int, evalCount: int,
                             cachedPromptTokens: int, cacheCreationTokens: int)

  /** One chat response: a whole answer, or one chunk of a streamed answer. */
  datatype Chunk = Chunk(thinking: string, content: string, calls: seq<ToolCall>, done: bool,
                         doneReason: string, stopSequence: string, metrics: Metrics,
                         compression: Option<nat>)

  datatype Usage = Usage(input: int, output: int, cacheRead: int, cacheCreation: int,
                         compression: Option<nat>)

  datatype ContentBlock =
    | Thinking(thinking: string)
    | Text(text: string)
    | ToolUse(id: string, name: string, input: Arguments)

  datatype MessagesResponse = MessagesResponse(id: string, model: string, content: seq<ContentBlock>,
                                               stopReason: string, stopSequence: string, usage: Usage)

  /** The counts reported are those of the metrics, and with the input they add up to the prompt
      presented, or to the cache counts where these exceed it. */
  function UsageFromMetrics(m: Metrics): (u: Usage)
    ensures u.output == m.evalCount && u.compression == None
    ensures u.cacheRead == m.cachedPromptTokens && u.cacheCreation == m.cacheCreationTokens
    ensures var cached := u.cacheRead + u.cacheCreation;
            u.input + cached == if cached <= m.promptEvalCount then m.promptEvalCount else cached
  {
    var input := m.promptEvalCount - m.cachedPromptTokens - m.cacheCreationTokens;
    Usage(if input < 0 then 0 else input, m.evalCount, m.cachedPromptTokens, m.cacheCreationTokens, None)
  }

  function LowerChar(c: char): char {
    if 'A' <= c <= 'Z' then c - 'A' + 'a' else c
  }

  /** Case-insensitive comparison with a lower-case ASCII word. */
  predicate EqualFold(s: string, lower: string) {
    |s| == |lower| && forall i :: 0 <= i < |s| ==> LowerChar(s[i]) == lower[i]
  }

  function MapStopReason(reason: string, hasToolCalls: bool, stopSequence: string): (stop: string)
    ensures TellsStop(stop, reason, hasToolCalls, stopSequence)
  {
    SpelledLength(reason);
    if EqualFold(reason, "length") then "max_tokens"
    else if hasToolCalls then "tool_use"
    else if stopSequence != "" then "stop_sequence"
    else if reason == "stop" then "end_turn"
    else if reason != "" then "stop_sequence"
    else ""
  }

  /** The word "length", each letter in either case. */
  predicate CutAtLength(reason: string) {
    |reason| == 6 && forall i :: 0 <= i < 6 ==> reason[i] == "length"[i] || reason[i] == "LENGTH"[i]
  }

  lemma SpelledLength(reason: string)
    ensures EqualFold(reason, "length") <==> CutAtLength(reason)
  {
    if |reason| == 6 {
      forall i | 0 <= i < 6
        ensures LowerChar(reason[i]) == "length"[i] <==> reason[i] == "length"[i] || reason[i] == "LENGTH"[i]
      {
        assert "LENGTH"[i] - 'A' + 'a' == "length"[i];
      }
    }
  }

  /** What each stop reason says of the answer, and when each is given. */
  predicate TellsStop(stop: string, reason: string, called: bool, sequence: string) {
    && (stop == "max_tokens" <==> CutAtLength(reason))
    && (stop == "tool_use" <==> called && !CutAtLength(reason))
    && (stop == "end_turn" <==> reason == "stop" && !called && sequence == "")
    && (stop == "" <==> reason == "" && !called && sequence == "")
    && (stop == "stop_sequence" <==>
        !CutAtLength(reason) && !called && (sequence != "" || (reason != "stop" && reason != "")))
  }

  function ToolUses(calls: seq<ToolCall>): (r: seq<ContentBlock>)
    ensures |r| == |calls|
  {
    seq(|calls|, i requires 0 <= i < |calls| => ToolUse(calls[i].id, calls[i].name, calls[i].arguments))
  }

  /** The content list of the non-streaming answer. */
  function ContentOf(r: Chunk): seq<ContentBlock> {
    (if r.thinking != "" then [Thinking(r.thinking)] else [])
    + (if r.content != "" then [Text(r.content)] else [])
    + ToolUses(r.calls)
  }

  method ToMessagesResponse(id: string, model: string, r: Chunk) returns (m: MessagesResponse)
    ensures m == MessagesResponse(id, model, ContentOf(r),
                                  MapStopReason(r.doneReason, |r.calls| > 0, r.stopSequence),
                                  r.stopSequence, UsageFromMetrics(r.metrics).(compression := r.compression))
    ensures TellsStop(m.stopReason, r.doneReason, r.calls != [], r.stopSequence)
  {
    var content := [];
    if r.thinking != "" {
      content := content + [Thinking(r.thinking)];
    }
    if r.content != "" {
      content := content + [Text(r.content)];
    }
    ghost var prefix := content;
    for i := 0 to |r.calls|
      invariant content == prefix + ToolUses(r.calls)[..i]
    {
      var tc := r.calls[i];
      content := content + [ToolUse(tc.id, tc.name, tc.arguments)];
    }
    m := MessagesResponse(id, model, content,
                          MapStopReason(r.doneReason, |r.calls| > 0, r.stopSequence),
                          r.stopSequence, UsageFromMetrics(r.metrics).(compression := r.compression));
  }
}
