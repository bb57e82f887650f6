/** What can be said of a chunk sequence before any of it is converted. */
module StreamInput {
  import opened Messages

  function AllCalls(chunks: seq<Chunk>): seq<ToolCall> {
    if chunks == [] then [] else AllCalls(chunks[..|chunks| - 1]) + chunks[|chunks| - 1].calls
  }

  function AllThinking(chunks: seq<Chunk>): string {
    if chunks == [] then "" else AllThinking(chunks[..|chunks| - 1]) + chunks[|chunks| - 1].thinking
  }

  function AllContent(chunks: seq<Chunk>): string {
    if chunks == [] then "" else AllContent(chunks[..|chunks| - 1]) + chunks[|chunks| - 1].content
  }

  function EncodedIds(calls: seq<ToolCall>): set<string> {
    set t | t in calls && t.Encodable() :: t.id
  }

  predicate AllSent(calls: seq<ToolCall>, sent: set<string>) {
    forall t :: t in calls ==> t.id in sent
  }

  /** The first encodable call of each id not sent before, in order. */
  function FirstEncodable(sent: set<string>, calls: seq<ToolCall>): seq<ToolCall> {
    if calls == [] then []
    else
      var n := |calls| - 1;
      var t := calls[n];
      FirstEncodable(sent, calls[..n])
      + (if t.Encodable() && t.id !in sent + EncodedIds(calls[..n]) then [t] else [])
  }

  /** Some chunk carries text, and every call from that chunk on repeats an id encoded before it. */
  ghost predicate TextLeftOpen(chunks: seq<Chunk>) {
    exists i :: 0 <= i < |chunks| && TextOpenSince(chunks, i)
  }

  ghost predicate TextOpenSince(chunks: seq<Chunk>, i: nat)
    requires i < |chunks|
  {
    chunks[i].content != "" && AllSent(AllCalls(chunks[i..]), EncodedIds(AllCalls(chunks[..i])))
  }

  predicate HasThinking(chunks: seq<Chunk>) {
    exists i :: 0 <= i < |chunks| && chunks[i].thinking != ""
  }

  /** Chunk `j` brings the first thinking of the stream while text is left open. */
  ghost predicate OpensThinkingInText(chunks: seq<Chunk>, j: nat)
    requires j < |chunks|
  {
    chunks[j].thinking != "" && !HasThinking(chunks[..j]) && TextLeftOpen(chunks[..j])
  }

  /** The condition on the input under which a stream is well formed. */
  ghost predicate Admissible(chunks: seq<Chunk>) {
    forall j :: 0 <= j < |chunks| ==> !OpensThinkingInText(chunks, j)
  }

  predicate NoDone(chunks: seq<Chunk>) {
    forall i :: 0 <= i < |chunks| ==> !chunks[i].done
  }

  predicate DoneLast(chunks: seq<Chunk>) {
    |chunks| > 0 && chunks[|chunks| - 1].done && NoDone(chunks[..|chunks| - 1])
  }

  /** Chunk `i` closes the thinking block: thinking has come, and the chunk brings text or an
      id not encoded before. */
  ghost predicate ClosesThinking(chunks: seq<Chunk>, i: nat)
    requires i < |chunks|
  {
    && HasThinking(chunks[..i + 1])
    && (chunks[i].content != "" || !AllSent(chunks[i].calls, EncodedIds(AllCalls(chunks[..i]))))
  }

  ghost predicate ThinkingClosed(chunks: seq<Chunk>) {
    exists i :: 0 <= i < |chunks| && ClosesThinking(chunks, i)
  }

  /** The thinking received up to and including the chunk that closes the thinking block. */
  ghost function KeptThinking(chunks: seq<Chunk>): string {
    if chunks == [] then ""
    else
      var n := |chunks| - 1;
      KeptThinking(chunks[..n]) + (if ThinkingClosed(chunks[..n]) then "" else chunks[n].thinking)
  }

  /** Thinking, then text, then tool calls, however the answer is cut into chunks. */
  ghost predicate PhaseOrdered(chunks: seq<Chunk>) {
    && (forall i, j :: 0 <= i < j < |chunks| && chunks[i].content != "" ==> chunks[j].thinking == "")
    && (forall i, j :: 0 <= i < j < |chunks| && chunks[i].calls != [] ==>
          chunks[j].thinking == "" && chunks[j].content == "")
  }

  /** The answer as one response: everything joined, with the last chunk's closing data. */
  function Merged(chunks: seq<Chunk>): Chunk
    requires |chunks| > 0
  {
    chunks[|chunks| - 1].(thinking := AllThinking(chunks), content := AllContent(chunks), calls := AllCalls(chunks))
  }

  ghost predicate DistinctEncodable(calls: seq<ToolCall>) {
    && (forall i :: 0 <= i < |calls| ==> calls[i].Encodable())
    && (forall i, j :: 0 <= i < j < |calls| ==> calls[i].id != calls[j].id)
  }

  // ---- Facts about these summaries ----

  lemma Snoc(chunks: seq<Chunk>, r: Chunk)
    ensures (chunks + [r])[..|chunks|] == chunks
    ensures AllCalls(chunks + [r]) == AllCalls(chunks) + r.calls
    ensures AllThinking(chunks + [r]) == AllThinking(chunks) + r.thinking
    ensures AllContent(chunks + [r]) == AllContent(chunks) + r.content
    ensures EncodedIds(AllCalls(chunks + [r])) == EncodedIds(AllCalls(chunks)) + EncodedIds(r.calls)
  {
    assert (chunks + [r])[..|chunks|] == chunks;
  }

  lemma {:induction false} CallsSplit(chunks: seq<Chunk>, i: nat)
    requires i <= |chunks|
    ensures AllCalls(chunks) == AllCalls(chunks[..i]) + AllCalls(chunks[i..])
    decreases |chunks|
  {
    if i == |chunks| {
      assert chunks[..i] == chunks;
    } else {
      var n := |chunks| - 1;
      CallsSplit(chunks[..n], i);
      assert chunks[..n][..i] == chunks[..i];
      assert chunks[i..][..n - i] == chunks[..n][i..];
    }
  }

  lemma OpenSinceSnoc(chunks: seq<Chunk>, r: Chunk, i: nat)
    requires i < |chunks|
    ensures TextOpenSince(chunks + [r], i) <==>
            TextOpenSince(chunks, i) && AllSent(r.calls, EncodedIds(AllCalls(chunks)))
  {
    var all := chunks + [r];
    assert all[..i] == chunks[..i] && all[i..] == chunks[i..] + [r];
    Snoc(chunks[i..], r);
    CallsSplit(chunks, i);
  }

  lemma OpenSinceLast(chunks: seq<Chunk>, r: Chunk)
    ensures TextOpenSince(chunks + [r], |chunks|) <==>
            r.content != "" && AllSent(r.calls, EncodedIds(AllCalls(chunks)))
  {
    var all, n := chunks + [r], |chunks|;
    assert all[..n] == chunks;
    assert all[n..] == [r];
    assert AllCalls([r]) == r.calls by {
      assert [r][..0] == [];
      assert [] + r.calls == r.calls;
    }
  }

  /** Text stays open over one more chunk exactly when its calls bring no new id. */
  lemma TextOpenSnoc(chunks: seq<Chunk>, r: Chunk)
    ensures TextLeftOpen(chunks + [r]) <==>
            (r.content != "" || TextLeftOpen(chunks)) && AllSent(r.calls, EncodedIds(AllCalls(chunks)))
  {
    var all, n := chunks + [r], |chunks|;
    OpenSinceLast(chunks, r);
    if TextLeftOpen(all) {
      var i :| 0 <= i < |all| && TextOpenSince(all, i);
      if i < n {
        OpenSinceSnoc(chunks, r, i);
      }
    }
    if TextLeftOpen(chunks) {
      var i :| 0 <= i < n && TextOpenSince(chunks, i);
      OpenSinceSnoc(chunks, r, i);
    }
  }

  lemma ThinkingSnoc(chunks: seq<Chunk>, r: Chunk)
    ensures HasThinking(chunks + [r]) <==> HasThinking(chunks) || r.thinking != ""
    ensures ThinkingClosed(chunks + [r]) <==>
            ThinkingClosed(chunks)
            || (HasThinking(chunks + [r]) && (r.content != "" || !AllSent(r.calls, EncodedIds(AllCalls(chunks)))))
  {
    var all, n := chunks + [r], |chunks|;
    assert all[..n] == chunks && all[..n + 1] == all;
    if HasThinking(chunks) {
      var i :| 0 <= i < n && chunks[i].thinking != "";
      assert all[i].thinking != "";
    }
    if r.thinking != "" {
      assert all[n].thinking != "";
    }
    forall i | 0 <= i < n ensures ClosesThinking(all, i) <==> ClosesThinking(chunks, i) {
      assert all[..i] == chunks[..i] && all[..i + 1] == chunks[..i + 1];
    }
    if ThinkingClosed(all) {
      var i :| 0 <= i < |all| && ClosesThinking(all, i);
    }
    if ThinkingClosed(chunks) {
      var i :| 0 <= i < n && ClosesThinking(chunks, i);
      assert ClosesThinking(all, i);
    }
    assert ClosesThinking(all, n) ==> ThinkingClosed(all);
  }

  lemma AdmissibleSnoc(chunks: seq<Chunk>, r: Chunk)
    ensures Admissible(chunks + [r]) <==>
            Admissible(chunks) && !(r.thinking != "" && !HasThinking(chunks) && TextLeftOpen(chunks))
  {
    var all, n := chunks + [r], |chunks|;
    assert all[..n] == chunks;
    forall j | 0 <= j < n ensures OpensThinkingInText(all, j) <==> OpensThinkingInText(chunks, j) {
      assert all[..j] == chunks[..j];
    }
    if !Admissible(chunks) {
      var j :| 0 <= j < n && OpensThinkingInText(chunks, j);
      assert OpensThinkingInText(all, j);
    }
    assert OpensThinkingInText(all, n) <==> (r.thinking != "" && !HasThinking(chunks) && TextLeftOpen(chunks));
  }

  lemma EncodedConcat(a: seq<ToolCall>, b: seq<ToolCall>)
    ensures EncodedIds(a + b) == EncodedIds(a) + EncodedIds(b)
  {
  }

  lemma {:induction false} FirstEncodableConcat(sent: set<string>, a: seq<ToolCall>, b: seq<ToolCall>)
    ensures FirstEncodable(sent, a + b) == FirstEncodable(sent, a) + FirstEncodable(sent + EncodedIds(a), b)
    decreases |b|
  {
    if b == [] {
      assert a + b == a;
    } else {
      var n := |b| - 1;
      var front, t := b[..n], b[n];
      assert b == front + [t];
      assert a + b == (a + front) + [t];
      FirstEncodableConcat(sent, a, front);
      FirstConcatSnoc(sent, a, front, t);
    }
  }

  lemma FirstConcatSnoc(sent: set<string>, a: seq<ToolCall>, b: seq<ToolCall>, t: ToolCall)
    requires FirstEncodable(sent, a + b) == FirstEncodable(sent, a) + FirstEncodable(sent + EncodedIds(a), b)
    ensures FirstEncodable(sent, (a + b) + [t]) ==
            FirstEncodable(sent, a) + FirstEncodable(sent + EncodedIds(a), b + [t])
  {
    FirstOneMore(sent, a + b, t);
    FirstOneMore(sent + EncodedIds(a), b, t);
    SeenInBoth(sent, a, b, t.id);
  }

  lemma SeenInBoth(sent: set<string>, a: seq<ToolCall>, b: seq<ToolCall>, id: string)
    ensures id in sent + EncodedIds(a + b) <==> id in sent + EncodedIds(a) + EncodedIds(b)
  {
    EncodedConcat(a, b);
  }

  lemma FirstOneMore(sent: set<string>, calls: seq<ToolCall>, t: ToolCall)
    ensures FirstEncodable(sent, calls + [t]) ==
            if t.Encodable() && t.id !in sent + EncodedIds(calls) then FirstEncodable(sent, calls) + [t]
            else FirstEncodable(sent, calls)
  {
    assert (calls + [t])[..|calls|] == calls;
    assert FirstEncodable(sent, calls) + [] == FirstEncodable(sent, calls);
  }

  lemma EncodedOne(t: ToolCall)
    ensures EncodedIds([t]) == if t.Encodable() then {t.id} else {}
  {
    assert t in [t];
  }

  lemma DistinctSnoc(calls: seq<ToolCall>, t: ToolCall)
    ensures DistinctEncodable(calls + [t]) <==>
            DistinctEncodable(calls) && t.Encodable() && t.id !in EncodedIds(calls)
  {
    var all := calls + [t];
    if DistinctEncodable(all) {
      assert forall i :: 0 <= i < |calls| ==> calls[i] == all[i];
      assert all[|calls|] == t;
    }
    if DistinctEncodable(calls) && t.Encodable() && t.id !in EncodedIds(calls) {
      forall i | 0 <= i < |calls| ensures calls[i].id in EncodedIds(calls) {
      }
    }
  }

  /** Each encodable id is delivered exactly once. */
  lemma {:induction false} FirstEncodableOnce(sent: set<string>, calls: seq<ToolCall>)
    ensures DistinctEncodable(FirstEncodable(sent, calls))
    ensures EncodedIds(FirstEncodable(sent, calls)) == EncodedIds(calls) - sent
  {
    if calls != [] {
      var n := |calls| - 1;
      var t := calls[n];
      var first := FirstEncodable(sent, calls[..n]);
      FirstEncodableOnce(sent, calls[..n]);
      assert calls == calls[..n] + [t];
      EncodedConcat(calls[..n], [t]);
      EncodedOne(t);
      assert FirstEncodable(sent, calls)
          == first + (if t.Encodable() && t.id !in sent + EncodedIds(calls[..n]) then [t] else []);
      if t.Encodable() && t.id !in sent + EncodedIds(calls[..n]) {
        EncodedConcat(first, [t]);
        DistinctSnoc(first, t);
      } else {
        assert first + [] == first;
      }
    }
  }

  lemma FirstSnoc(before: seq<ToolCall>, t: ToolCall)
    ensures FirstEncodable({}, before + [t]) ==
            if t.Encodable() && t.id !in EncodedIds(before) then FirstEncodable({}, before) + [t]
            else FirstEncodable({}, before)
  {
    FirstOneMore({}, before, t);
    assert {} + EncodedIds(before) == EncodedIds(before);
  }

  /** As many calls are delivered as were made exactly when all encode and no id repeats. */
  lemma {:induction false} NothingDropped(calls: seq<ToolCall>)
    ensures |FirstEncodable({}, calls)| <= |calls|
    ensures |FirstEncodable({}, calls)| == |calls| <==> DistinctEncodable(calls)
    ensures DistinctEncodable(calls) ==> FirstEncodable({}, calls) == calls
  {
    if calls != [] {
      var n := |calls| - 1;
      var before, t := calls[..n], calls[n];
      assert calls == before + [t];
      NothingDropped(before);
      NoneDroppedSnoc(FirstEncodable({}, before), before, t);
    }
  }

  lemma NoneDroppedSnoc(first: seq<ToolCall>, before: seq<ToolCall>, t: ToolCall)
    requires first == FirstEncodable({}, before) && |first| <= |before|
    requires |first| == |before| <==> DistinctEncodable(before)
    requires DistinctEncodable(before) ==> first == before
    ensures |FirstEncodable({}, before + [t])| <= |before| + 1
    ensures |FirstEncodable({}, before + [t])| == |before| + 1 <==> DistinctEncodable(before + [t])
    ensures DistinctEncodable(before + [t]) ==> FirstEncodable({}, before + [t]) == before + [t]
  {
    FirstSnoc(before, t);
    DistinctSnoc(before, t);
  }
}
