/** The client completes on exactly the event sequences that the protocol calls well formed. */
module StreamGrammar {
  import opened StreamConverter
  import opened StreamClient

  predicate Framing(e: Event) {
    e.MessageStart? || e.MessageDelta? || e.MessageStop?
  }

  /** `s` is the start of the client's open block. */
  ghost predicate OpenAt(events: seq<Event>, s: nat, blocks: nat, b: Block) {
    && StillOpen(events, s, |events|)
    && events[s].index == blocks
    && (forall d :: Fits(b, d) <==> Fits(EmptyBlock(events[s].kind), d))
  }

  /** What the client's state says about the events received so far, up to the closing events. */
  ghost predicate Shape(events: seq<Event>, k: Client)
    requires k.Receiving?
  {
    && |events| > 0
    && (forall i :: 0 <= i < |events| ==> (Framing(events[i]) <==> i == 0))
    && events[0].MessageStart?
    && Stops(events) == UpTo(|k.blocks|)
    && Starts(events) == UpTo(|k.blocks| + if k.open.Some? then 1 else 0)
    && BlocksNest(events)
    && (k.open.Some? ==> exists s: nat :: OpenAt(events, s, |k.blocks|, k.open.value))
  }

  lemma NestExtends(events: seq<Event>, e: Event)
    requires BlocksNest(events)
    requires e.BlockDelta? || e.BlockStop? ==> InOwnBlock(events + [e], |events|)
    ensures BlocksNest(events + [e])
  {
    var all := events + [e];
    forall i | 0 <= i < |all| && (all[i].BlockDelta? || all[i].BlockStop?) ensures InOwnBlock(all, i) {
      if i < |events| {
        assert all[i] == events[i];
        var s: nat :| StillOpen(events, s, i) && events[s].index == events[i].index
                      && (events[i].BlockDelta? ==> Fits(EmptyBlock(events[s].kind), events[i].delta));
        assert StillOpen(all, s, i);
      }
    }
  }

  lemma StartStep(events: seq<Event>, k: Client, e: Event)
    requires k.Receiving? && Shape(events, k)
    requires e.BlockStart? && Receive(k, e).Receiving?
    ensures Shape(events + [e], Receive(k, e))
  {
    var all, k' := events + [e], Receive(k, e);
    assert all[..|events|] == events;
    NestExtends(events, e);
    assert OpenAt(all, |events|, |k'.blocks|, k'.open.value);
  }

  lemma InsideNests(events: seq<Event>, k: Client, e: Event, s: nat)
    requires k.Receiving? && k.open.Some? && BlocksNest(events) && OpenAt(events, s, |k.blocks|, k.open.value)
    requires (e.BlockDelta? || e.BlockStop?) && Receive(k, e).Receiving?
    ensures BlocksNest(events + [e])
    ensures e.BlockDelta? ==> OpenAt(events + [e], s, |k.blocks|, Receive(k, e).open.value)
  {
    var all := events + [e];
    assert StillOpen(all, s, |events|);
    assert InOwnBlock(all, |events|);
    NestExtends(events, e);
  }

  lemma CountsSnoc(events: seq<Event>, e: Event)
    ensures Starts(events + [e]) == if e.BlockStart? then Starts(events) + [e.index] else Starts(events)
    ensures Stops(events + [e]) == if e.BlockStop? then Stops(events) + [e.index] else Stops(events)
  {
    assert (events + [e])[..|events|] == events;
  }

  lemma UpToSnoc(n: nat)
    ensures UpTo(n) + [n] == UpTo(n + 1)
  {
  }

  lemma InsideStep(events: seq<Event>, k: Client, e: Event)
    requires k.Receiving? && Shape(events, k)
    requires (e.BlockDelta? || e.BlockStop?) && Receive(k, e).Receiving?
    ensures Shape(events + [e], Receive(k, e))
  {
    var all, k' := events + [e], Receive(k, e);
    var s: nat :| OpenAt(events, s, |k.blocks|, k.open.value);
    InsideNests(events, k, e, s);
    CountsSnoc(events, e);
    UpToSnoc(|k.blocks|);
    assert all[|events|] == e && forall i :: 0 <= i < |events| ==> all[i] == events[i];
    if e.BlockDelta? {
      assert OpenAt(all, s, |k'.blocks|, k'.open.value);
    }
  }

  lemma ShapeStep(events: seq<Event>, k: Client, e: Event)
    requires k.Receiving? && Shape(events, k)
    requires Receive(k, e).Receiving?
    ensures Shape(events + [e], Receive(k, e))
  {
    if e.BlockStart? {
      StartStep(events, k, e);
    } else {
      InsideStep(events, k, e);
    }
  }

  lemma FirstShape(e: Event)
    requires Receive(Waiting, e).Receiving?
    ensures Shape([e], Receive(Waiting, e))
  {
    assert [e][..0] == [];
  }

  lemma {:induction false} ReceivingHasShape(events: seq<Event>)
    ensures ReceiveAll(Waiting, events).Waiting? ==> events == []
    ensures ReceiveAll(Waiting, events).Receiving? ==> Shape(events, ReceiveAll(Waiting, events))
  {
    if events != [] {
      var n := |events| - 1;
      var before, e := events[..n], events[n];
      ReceivingHasShape(before);
      var k := ReceiveAll(Waiting, before);
      if Receive(k, e).Receiving? {
        assert events == before + [e];
        if k.Receiving? {
          ShapeStep(before, k, e);
        } else {
          FirstShape(e);
        }
      }
    }
  }

  /** Appending the two closing events to a finished body. */
  lemma Closing(body: seq<Event>, k: Client, d: Event, e: Event)
    requires k.Receiving? && k.open.None? && Shape(body, k)
    requires d.MessageDelta? && e.MessageStop?
    ensures WellFormed(body + [d] + [e])
  {
    var all := body + [d] + [e];
    NestExtends(body, d);
    NestExtends(body + [d], e);
    assert all[..|all| - 1] == body + [d];
    assert (body + [d])[..|body|] == body;
    assert Starts(all) == Starts(body) && Stops(all) == Stops(body);
    if |body| == 1 {
      assert body[0].MessageStart?;
    }
  }

  lemma CompleteIsWellFormed(events: seq<Event>)
    requires ReceiveAll(Waiting, events).Complete?
    ensures WellFormed(events)
  {
    var n := |events| - 1;
    var m := n - 1;
    var body := events[..n][..m];
    assert events == body + [events[m]] + [events[n]];
    ReceivingHasShape(body);
    Closing(body, ReceiveAll(Waiting, body), events[m], events[n]);
  }

  // ---- The other direction ----

  lemma {:induction false} CountsOfPrefix(events: seq<Event>, p: nat)
    requires p <= |events|
    ensures Starts(events[..p]) <= Starts(events) && Stops(events[..p]) <= Stops(events)
    decreases |events|
  {
    if p < |events| {
      CountsOfPrefix(events[..|events| - 1], p);
      assert events[..|events| - 1][..p] == events[..p];
    } else {
      assert events[..p] == events;
    }
  }

  /** The start or stop at `p` carries the number of starts or stops before it. */
  lemma IndexOfPosition(events: seq<Event>, p: nat)
    requires p < |events|
    requires Starts(events) == Stops(events) == UpTo(|Starts(events)|)
    ensures events[p].BlockStart? ==>
              |Starts(events[..p])| < |Starts(events)| && events[p].index == |Starts(events[..p])|
    ensures events[p].BlockStop? ==>
              |Stops(events[..p])| < |Stops(events)| && events[p].index == |Stops(events[..p])|
  {
    var next := events[..p + 1];
    CountsOfPrefix(events, p + 1);
    assert next[..p] == events[..p];
    if events[p].BlockStart? {
      assert Starts(next)[|Starts(events[..p])|] == events[p].index;
    }
    if events[p].BlockStop? {
      assert Stops(next)[|Stops(events[..p])|] == events[p].index;
    }
  }

  lemma {:induction false} StopPosition(events: seq<Event>, j: nat) returns (p: nat)
    requires j < |Stops(events)|
    ensures p < |events| && events[p].BlockStop? && events[p].index == Stops(events)[j]
  {
    var n := |events| - 1;
    if j < |Stops(events[..n])| {
      p := StopPosition(events[..n], j);
    } else {
      p := n;
    }
  }

  lemma StartsDiffer(events: seq<Event>, s: nat, t: nat)
    requires s < t < |events| && events[s].BlockStart? && events[t].BlockStart?
    requires Starts(events) == Stops(events) == UpTo(|Starts(events)|)
    ensures events[s].index != events[t].index
  {
    IndexOfPosition(events, s);
    IndexOfPosition(events, t);
    CountsOfPrefix(events[..t], s + 1);
    assert events[..t][..s + 1] == events[..s + 1];
    assert events[..s + 1][..s] == events[..s];
  }

  /** In a well-formed sequence nothing but a delta or a stop may follow while a block is open. */
  lemma OpenBlockIsStopped(events: seq<Event>, s: nat, p: nat)
    requires WellFormed(events)
    requires p < |events| && StillOpen(events, s, p)
    ensures events[p].BlockDelta? || events[p].BlockStop?
  {
    IndexOfPosition(events, s);
    var q := StopPosition(events, events[s].index);
    var t: nat :| StillOpen(events, t, q) && events[t].index == events[q].index;
    if t != s {
      StartsDiffer(events, if s < t then s else t, if s < t then t else s);
    }
  }

  lemma {:induction false} BodyIsAccepted(events: seq<Event>, p: nat)
    requires WellFormed(events) && 0 < p <= |events| - 2
    ensures ReceiveAll(Waiting, events[..p]).Receiving?
    ensures Shape(events[..p], ReceiveAll(Waiting, events[..p]))
  {
    var n := p - 1;
    var before := events[..p];
    assert before[..n] == events[..n];
    if n > 0 {
      BodyIsAccepted(events, n);
      var k := ReceiveAll(Waiting, events[..n]);
      NextIsAccepted(events, n, k);
    }
    ReceivingHasShape(before);
  }

  lemma InsideIsAccepted(events: seq<Event>, p: nat, k: Client, s: nat)
    requires WellFormed(events) && p < |events|
    requires k.Receiving? && k.open.Some? && OpenAt(events[..p], s, |k.blocks|, k.open.value)
    ensures Receive(k, events[p]).Receiving?
  {
    assert StillOpen(events, s, p);
    OpenBlockIsStopped(events, s, p);
    var t: nat :| StillOpen(events, t, p) && events[t].index == events[p].index
                  && (events[p].BlockDelta? ==> Fits(EmptyBlock(events[t].kind), events[p].delta));
    assert t == s;
  }

  lemma NextIsAccepted(events: seq<Event>, p: nat, k: Client)
    requires WellFormed(events) && 0 < p < |events| - 2
    requires k.Receiving? && Shape(events[..p], k)
    ensures Receive(k, events[p]).Receiving?
  {
    if k.open.Some? {
      var s: nat :| OpenAt(events[..p], s, |k.blocks|, k.open.value);
      InsideIsAccepted(events, p, k, s);
    } else {
      NothingOpen(events, p, k);
      IndexOfPosition(events, p);
    }
  }

  /** With no open block the next event is neither a delta nor a stop. */
  lemma NothingOpen(events: seq<Event>, p: nat, k: Client)
    requires WellFormed(events) && 0 < p < |events|
    requires k.Receiving? && k.open.None? && Shape(events[..p], k)
    ensures !events[p].BlockDelta? && !events[p].BlockStop?
  {
    if events[p].BlockDelta? || events[p].BlockStop? {
      var t: nat :| StillOpen(events, t, p) && events[t].index == events[p].index;
      StartedIsStopped(events, p, t, k);
      assert false;
    }
  }

  /** When every start has its stop, no start is still open. */
  lemma StartedIsStopped(events: seq<Event>, p: nat, t: nat, k: Client)
    requires WellFormed(events) && p < |events|
    requires k.Receiving? && k.open.None? && Shape(events[..p], k)
    ensures !StillOpen(events, t, p)
  {
    if t < p && events[t].BlockStart? {
      var q := StopOf(events, p, t, k);
      assert !events[q].BlockDelta?;
    }
  }

  /** The stop of the block started at `t`. */
  lemma StopOf(events: seq<Event>, p: nat, t: nat, k: Client) returns (q: nat)
    requires WellFormed(events) && t < p < |events| && events[t].BlockStart?
    requires k.Receiving? && k.open.None? && Shape(events[..p], k)
    ensures t < q < p && events[q].BlockStop?
  {
    var body := events[..p];
    StartCounted(events, p, t);
    assert |Starts(body)| == |k.blocks| == |Stops(body)|;
    q := StopPosition(body, events[t].index);
    OwnStart(events, q, t);
  }

  /** The index of a start is below the number of starts from then on. */
  lemma StartCounted(events: seq<Event>, p: nat, t: nat)
    requires Starts(events) == Stops(events) == UpTo(|Starts(events)|)
    requires t < p <= |events| && events[t].BlockStart?
    ensures 0 <= events[t].index < |Starts(events[..p])|
  {
    var body := events[..p];
    IndexOfPosition(events, t);
    CountsOfPrefix(body, t + 1);
    assert body[..t + 1] == events[..t + 1] && events[..t + 1][..t] == events[..t];
  }

  /** A stop comes after the only start of its index. */
  lemma OwnStart(events: seq<Event>, q: nat, t: nat)
    requires WellFormed(events) && q < |events| && events[q].BlockStop?
    requires t < |events| && events[t].BlockStart? && events[t].index == events[q].index
    ensures t < q
  {
    assert InOwnBlock(events, q);
    var u: nat :| StillOpen(events, u, q) && events[u].index == events[q].index;
    if u != t {
      StartsDiffer(events, if u < t then u else t, if u < t then t else u);
    }
  }

  lemma WellFormedIsComplete(events: seq<Event>)
    requires WellFormed(events)
    ensures ReceiveAll(Waiting, events).Complete?
  {
    var m := |events| - 2;
    BodyIsAccepted(events, m);
    var k := ReceiveAll(Waiting, events[..m]);
    if k.open.Some? {
      var s: nat :| OpenAt(events[..m], s, |k.blocks|, k.open.value);
      InsideIsAccepted(events, m, k, s);
    }
    assert k.open.None?;
    assert events[..m + 1][..m] == events[..m];
    assert events[..|events| - 1] == events[..m + 1];
  }

  /** The client completes if and only if the stream is well formed. */
  lemma ClientAcceptsExactlyWellFormed(events: seq<Event>)
    ensures ReceiveAll(Waiting, events).Complete? <==> WellFormed(events)
  {
    if ReceiveAll(Waiting, events).Complete? {
      CompleteIsWellFormed(events);
    }
    if WellFormed(events) {
      WellFormedIsComplete(events);
    }
  }
}
