/** Streams from any chunk sequence at all, with any number of Done chunks anywhere. */
module StreamAnyInput {
  import opened Messages
  import opened StreamConverter
  import opened StreamInput
  import opened StreamClient
  import StreamGrammar
  import opened StreamRuns
  import opened StreamLayout
  import opened StreamTheorems

  /** A call that makes the converter emit nothing. */
  predicate QuietCall(t: ToolCall, sent: set<string>, open: bool) {
    t.id in sent || (!t.Encodable() && !open)
  }

  predicate Quiet(r: Chunk, sent: set<string>, open: bool, thinkingClosed: bool) {
    && !r.done
    && r.content == ""
    && (r.thinking == "" || thinkingClosed)
    && forall i :: 0 <= i < |r.calls| ==> QuietCall(r.calls[i], sent, open)
  }

  /** Chunk `j` adds nothing to the stream that chunk `k` has already ended. */
  ghost predicate SilentAfter(chunks: seq<Chunk>, k: nat, j: nat)
    requires k < j < |chunks|
  {
    var ended := chunks[..k + 1];
    Quiet(chunks[j], EncodedIds(AllCalls(ended)),
          TextLeftOpen(ended) || (HasThinking(ended) && !ThinkingClosed(ended)), ThinkingClosed(ended))
  }

  /** Chunk `k` is the first Done, the chunks up to it are admissible, those after it silent. */
  ghost predicate EndsAt(chunks: seq<Chunk>, k: nat)
    requires k < |chunks|
  {
    && chunks[k].done && NoDone(chunks[..k])
    && Admissible(chunks[..k + 1])
    && forall j :: k < j < |chunks| ==> SilentAfter(chunks, k, j)
  }

  lemma {:induction false} CallsQuiet(c: Converter, calls: seq<ToolCall>)
    ensures var open := c.textStarted || c.ThinkingOpen();
            if forall i :: 0 <= i < |calls| ==> QuietCall(calls[i], c.toolCallsSent, open)
            then Calls(c, calls) == Out(c, []) else Calls(c, calls).events != []
  {
    if calls != [] {
      var n := |calls| - 1;
      CallsQuiet(c, calls[..n]);
      assert forall i :: 0 <= i < n ==> calls[i] == calls[..n][i];
    }
  }

  lemma ProcessQuiet(c: Converter, r: Chunk)
    requires !c.firstWrite
    ensures if Quiet(r, c.toolCallsSent, c.textStarted || c.ThinkingOpen(), c.thinkingDone)
            then Process(c, r) == Out(c, []) else Process(c, r).events != []
  {
    if !r.done && r.content == "" && (r.thinking == "" || c.thinkingDone) {
      assert Speech(c, r) == Out(c, []);
      CallsQuiet(c, r.calls);
    }
  }

  lemma {:induction false} CompleteThenAny(k: Client, events: seq<Event>)
    requires k.Complete? && events != []
    ensures ReceiveAll(k, events) == Broken
  {
    var n := |events| - 1;
    if n > 0 {
      CompleteThenAny(k, events[..n]);
    } else {
      assert events[..0] == [];
    }
  }

  /** What the chunks up to the Done say about the converter is what `SilentAfter` asks. */
  lemma SilentIsQuiet(c: Converter, chunks: seq<Chunk>, k: nat, j: nat)
    requires c == NewConverter(c.id, c.model, c.estimatedInputTokens)
    requires k < j < |chunks|
    ensures var d := Run(c, chunks[..k + 1]).c;
            !d.firstWrite && (SilentAfter(chunks, k, j) <==> QuietFor(d, chunks[j]))
  {
    RunFlags(c, chunks[..k + 1]);
  }

  predicate QuietFor(c: Converter, r: Chunk) {
    Quiet(r, c.toolCallsSent, c.textStarted || c.ThinkingOpen(), c.thinkingDone)
  }

  /** One more chunk once the client is complete, or broken. */
  lemma OneMore(o: Out, r: Chunk)
    requires var k := ReceiveAll(Waiting, o.events);
             (k.Complete? && !o.c.firstWrite) || k == Broken
    ensures var k, q := ReceiveAll(Waiting, o.events), Process(o.c, r);
            if k.Complete? && QuietFor(o.c, r)
            then Out(q.c, o.events + q.events) == o
            else ReceiveAll(Waiting, o.events + q.events) == Broken
  {
    var k, q := ReceiveAll(Waiting, o.events), Process(o.c, r);
    ReceiveConcat(Waiting, o.events, q.events);
    if k == Broken {
      BrokenForever(q.events);
    } else {
      ProcessQuiet(o.c, r);
      if q.events != [] {
        CompleteThenAny(k, q.events);
      }
    }
  }

  lemma RunSnoc(c: Converter, before: seq<Chunk>, r: Chunk)
    ensures var o := Run(c, before);
            Run(c, before + [r]) == Out(Process(o.c, r).c, o.events + Process(o.c, r).events)
  {
    assert (before + [r])[..|before|] == before;
  }

  ghost predicate AllQuiet(c: Converter, more: seq<Chunk>) {
    forall j :: 0 <= j < |more| ==> QuietFor(c, more[j])
  }

  /** The run `all` is `o` and then `more`: unchanged when all of it is quiet, else broken. */
  ghost predicate Continues(o: Out, all: Out, more: seq<Chunk>) {
    if ReceiveAll(Waiting, o.events).Complete? && AllQuiet(o.c, more)
    then all == o else ReceiveAll(Waiting, all.events) == Broken
  }

  ghost predicate Over(o: Out) {
    var k := ReceiveAll(Waiting, o.events);
    (k.Complete? && !o.c.firstWrite) || k == Broken
  }

  lemma ContinuesSnoc(o: Out, mid: Out, more: seq<Chunk>, r: Chunk)
    requires Over(o) && Continues(o, mid, more)
    ensures var q := Process(mid.c, r);
            Continues(o, Out(q.c, mid.events + q.events), more + [r])
  {
    OneMore(mid, r);
    assert AllQuiet(o.c, more + [r]) <==> AllQuiet(o.c, more) && QuietFor(o.c, r) by {
      assert (more + [r])[|more|] == r;
      assert forall j :: 0 <= j < |more| ==> (more + [r])[j] == more[j];
    }
  }

  /** Chunks after a finished run: the client stays complete while every one is quiet. */
  lemma {:induction false} MoreChunks(c: Converter, ended: seq<Chunk>, more: seq<Chunk>)
    requires Over(Run(c, ended))
    ensures Continues(Run(c, ended), Run(c, ended + more), more)
    decreases |more|
  {
    if more == [] {
      assert ended + more == ended;
    } else {
      var front, r := more[..|more| - 1], more[|more| - 1];
      var all := ended + front;
      assert more == front + [r] && ended + more == all + [r];
      MoreChunks(c, ended, front);
      RunSnoc(c, all, r);
      ContinuesSnoc(Run(c, ended), Run(c, all), front, r);
    }
  }

  /** The client at the end of any run with a Done chunk. */
  lemma AfterDone(c: Converter, chunks: seq<Chunk>, k: nat)
    requires c == NewConverter(c.id, c.model, c.estimatedInputTokens)
    requires k < |chunks| && chunks[k].done && NoDone(chunks[..k])
    ensures ReceiveAll(Waiting, Run(c, chunks).events).Complete? <==> EndsAt(chunks, k)
  {
    var ended, more := chunks[..k + 1], chunks[k + 1..];
    assert chunks == ended + more && ended == chunks[..k] + [chunks[k]];
    FinishedRun(c, chunks[..k], chunks[k]);
    RunFlags(c, ended);
    MoreChunks(c, ended, more);
    AllSilentIsQuiet(c, chunks, k);
  }

  lemma AllSilentIsQuiet(c: Converter, chunks: seq<Chunk>, k: nat)
    requires c == NewConverter(c.id, c.model, c.estimatedInputTokens)
    requires k < |chunks|
    ensures var more, d := chunks[k + 1..], Run(c, chunks[..k + 1]).c;
            AllQuiet(d, more) <==> (forall j :: k < j < |chunks| ==> SilentAfter(chunks, k, j))
  {
    var more, d := chunks[k + 1..], Run(c, chunks[..k + 1]).c;
    forall j | k < j < |chunks| ensures SilentAfter(chunks, k, j) <==> QuietFor(d, more[j - k - 1]) {
      SilentIsQuiet(c, chunks, k, j);
    }
    if forall j :: k < j < |chunks| ==> SilentAfter(chunks, k, j) {
      forall j | 0 <= j < |more| ensures QuietFor(d, more[j]) {
        assert SilentAfter(chunks, k, j + k + 1);
      }
    }
  }

  lemma {:induction false} FirstDone(chunks: seq<Chunk>) returns (k: nat)
    requires !NoDone(chunks)
    ensures k < |chunks| && chunks[k].done && NoDone(chunks[..k])
  {
    var n := |chunks| - 1;
    if NoDone(chunks[..n]) {
      assert chunks == chunks[..n] + [chunks[n]];
      k := n;
    } else {
      k := FirstDone(chunks[..n]);
      assert chunks[..n][..k] == chunks[..k];
    }
  }

  /** For every chunk sequence: its stream is well formed if and only if the chunks up to the
      first Done are admissible and all later ones are silent. */
  lemma WellFormedStreams(c: Converter, chunks: seq<Chunk>)
    requires c == NewConverter(c.id, c.model, c.estimatedInputTokens)
    ensures WellFormed(Run(c, chunks).events) <==> exists k :: 0 <= k < |chunks| && EndsAt(chunks, k)
  {
    StreamGrammar.ClientAcceptsExactlyWellFormed(Run(c, chunks).events);
    if NoDone(chunks) {
      UnfinishedRun(c, chunks);
    } else {
      var k := FirstDone(chunks);
      AfterDone(c, chunks, k);
      if exists j :: 0 <= j < |chunks| && EndsAt(chunks, j) {
        var j :| 0 <= j < |chunks| && EndsAt(chunks, j);
        OnlyFirstDone(chunks, j, k);
      }
    }
  }

  lemma OnlyFirstDone(chunks: seq<Chunk>, j: nat, k: nat)
    requires j < |chunks| && chunks[j].done && NoDone(chunks[..j])
    requires k < |chunks| && chunks[k].done && NoDone(chunks[..k])
    ensures j == k
  {
  }

  /** Every well-formed stream, then, leaves the client with the layout of the chunks up to the
      first Done. */
  lemma WellFormedStreamHolds(c: Converter, chunks: seq<Chunk>, k: nat)
    requires c == NewConverter(c.id, c.model, c.estimatedInputTokens)
    requires k < |chunks| && EndsAt(chunks, k)
    ensures var client, ended := ReceiveAll(Waiting, Run(c, chunks).events), chunks[..k + 1];
            && client == Received(ended)
            && TellsStop(client.stopReason, chunks[k].doneReason, exists t :: t in AllCalls(ended) && t.Encodable(),
                         chunks[k].stopSequence)
  {
    var ended, more := chunks[..k + 1], chunks[k + 1..];
    assert chunks == ended + more && ended == chunks[..k] + [chunks[k]] && ended[..k] == chunks[..k];
    FinishedRun(c, chunks[..k], chunks[k]);
    RunFlags(c, ended);
    MoreChunks(c, ended, more);
    AllSilentIsQuiet(c, chunks, k);
    AdmissibleStreamHolds(c, ended);
  }
}
