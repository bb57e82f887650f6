/**
 Newline framing of client requests. Unless the last answer timed out, which requests have been
 handled does not depend on how reads split the bytes.
 */
module Framing {

  type Bytes = seq<bv8>

  const NEWLINE: bv8 := 10

  /** The requests completed so far and the unfinished rest. */
  datatype Frames = Frames(lines: seq<Bytes>, tail: Bytes)

  function AddByte(f: Frames, b: bv8): Frames {
    if b != NEWLINE then f.(tail := f.tail + [b])
    else Frames(if f.tail == [] then f.lines else f.lines + [f.tail], [])
  }

  /** One byte at a time: the non-empty newline-ended lines in order, and the unfinished tail. */
  function AddBytes(f: Frames, data: Bytes): Frames {
    if data == [] then f else AddByte(AddBytes(f, data[..|data| - 1]), data[|data| - 1])
  }

  const NOTHING := Frames([], [])

  function Split(data: Bytes): Frames {
    AddBytes(NOTHING, data)
  }

  function Concat(parts: seq<Bytes>): Bytes {
    if parts == [] then [] else Concat(parts[..|parts| - 1]) + parts[|parts| - 1]
  }

  lemma {:induction false} AddConcat(f: Frames, a: Bytes, b: Bytes)
    ensures AddBytes(f, a + b) == AddBytes(AddBytes(f, a), b)
    decreases |b|
  {
    if b == [] {
      assert a + b == a;
    } else {
      assert (a + b)[..|a + b| - 1] == a + b[..|b| - 1];
      AddConcat(f, a, b[..|b| - 1]);
    }
  }

  lemma {:induction false} AddPlain(f: Frames, data: Bytes)
    requires NEWLINE !in data
    ensures AddBytes(f, data) == f.(tail := f.tail + data)
  {
    if data == [] {
      assert f.tail + data == f.tail;
    } else {
      AddPlain(f, data[..|data| - 1]);
      assert f.tail + data == f.tail + data[..|data| - 1] + [data[|data| - 1]];
    }
  }

  /** Taking the line before the first newline off the front. */
  lemma TakeLine(lines: seq<Bytes>, line: Bytes, rest: Bytes)
    requires NEWLINE !in line
    ensures AddBytes(Frames(lines, []), line + [NEWLINE] + rest) ==
            AddBytes(Frames(if line == [] then lines else lines + [line], []), rest)
  {
    var f := Frames(lines, []);
    AddConcat(f, line + [NEWLINE], rest);
    assert (line + [NEWLINE])[..|line|] == line;
    AddPlain(f, line);
    assert [] + line == line;
  }

  /** Lines already taken stay in front. */
  lemma {:induction false} AddOnTop(lines: seq<Bytes>, data: Bytes)
    ensures AddBytes(Frames(lines, []), data) == Frames(lines + Split(data).lines, Split(data).tail)
  {
    if data == [] {
      assert lines + [] == lines;
    } else {
      AddOnTop(lines, data[..|data| - 1]);
      var f := Split(data[..|data| - 1]);
      assert lines + (f.lines + [f.tail]) == lines + f.lines + [f.tail];
    }
  }

  lemma PlainSplit(data: Bytes)
    requires NEWLINE !in data
    ensures Split(data) == Frames([], data)
  {
    AddPlain(NOTHING, data);
    assert [] + data == data;
  }

  /** How handling a line ends: with an answer sent (a result or "Invalid JSON"), with the socket
      timing out, or with any other exception, which ends the connection. */
  datatype Outcome = Answered | TimedOut | Raised

  class Connection {
    /** How handling the n-th request of this connection ends. */
    const outcome: nat -> Outcome
    var buffer: Bytes
    var requests: seq<Bytes>
    var open: bool
    ghost var received: seq<Bytes>

    /** The requests handled, then the lines still in the buffer, are those of the bytes received;
        the last request handled, and no other, has raised exactly when the connection is closed;
        while it is open complete lines wait only behind a request that timed out. */
    ghost predicate Valid()
      reads this
    {
      && AddBytes(Frames(requests, []), buffer) == Split(Concat(received))
      && (forall i :: 0 <= i < |requests| ==> (outcome(i) == Raised <==> !open && i == |requests| - 1))
      && (!open ==> requests != [])
      && (open && NEWLINE in buffer ==> requests != [] && outcome(|requests| - 1) == TimedOut)
    }

    constructor (outcome: nat -> Outcome)
      ensures Valid() && requests == [] && buffer == [] && open && received == []
      ensures this.outcome == outcome
    {
      this.outcome := outcome;
      buffer, requests, open := [], [], true;
      received := [];
    }

    /** One read: lines are handled in order up to the first that is not answered, or all. */
    method Receive(data: Bytes)
      requires Valid() && open
      modifies this
      ensures Valid() && received == old(received) + [data]
      ensures old(requests) <= requests
      ensures forall i :: |old(requests)| <= i < |requests| - 1 ==> outcome(i) == Answered
      ensures NEWLINE in buffer ==> |requests| > |old(requests)| && outcome(|requests| - 1) != Answered
    {
      received := received + [data];
      assert received[..|received| - 1] == old(received);
      AddConcat(NOTHING, Concat(old(received)), data);
      AddConcat(Frames(requests, []), buffer, data);
      buffer := buffer + data;
      HandleLines();
    }

    /** Handles the complete lines in the buffer. */
    method HandleLines()
      requires open
      modifies this`buffer, this`requests, this`open
      ensures AddBytes(Frames(requests, []), buffer) == AddBytes(Frames(old(requests), []), old(buffer))
      ensures old(requests) <= requests
      ensures forall i :: |old(requests)| <= i < |requests| - 1 ==> outcome(i) == Answered
      ensures NEWLINE in buffer ==> |requests| > |old(requests)| && outcome(|requests| - 1) != Answered
      ensures open <==> !(|requests| > |old(requests)| && outcome(|requests| - 1) == Raised)
    {
      ghost var whole := AddBytes(Frames(requests, []), buffer);
      while NEWLINE in buffer
        invariant open && old(requests) <= requests
        invariant AddBytes(Frames(requests, []), buffer) == whole
        invariant forall i :: |old(requests)| <= i < |requests| ==> outcome(i) == Answered
        decreases |buffer|
      {
        var line, rest := CutLine(buffer);
        TakeLine(requests, line, rest);
        buffer := rest;
        if line != [] {
          requests := requests + [line];
          match outcome(|requests| - 1) {
            case Answered =>
            case TimedOut => return;
            case Raised =>
              open := false;
              return;
          }
        }
      }
    }

    /** Cuts at the first newline. */
    static method CutLine(b: Bytes) returns (line: Bytes, rest: Bytes)
      requires NEWLINE in b
      ensures b == line + [NEWLINE] + rest && NEWLINE !in line
    {
      var k := 0;
      while b[k] != NEWLINE
        invariant k < |b| && NEWLINE !in b[..k]
        decreases |b| - k
      {
        k := k + 1;
      }
      line, rest := b[..k], b[k + 1..];
    }
  }

  /** The requests handled are the first lines received, and all of them exactly when no line
      waits in the buffer; lines wait in an open connection only behind a time-out. */
  lemma HandledInOrder(c: Connection)
    requires c.Valid()
    ensures var all, waiting := Split(Concat(c.received)), Split(c.buffer);
            && all == Frames(c.requests + waiting.lines, waiting.tail)
            && c.requests <= all.lines
            && (c.requests == all.lines <==> waiting.lines == [])
            && (NEWLINE !in c.buffer ==> waiting.lines == [])
            && (c.open && waiting.lines != [] ==> c.requests != [] && c.outcome(|c.requests| - 1) == TimedOut)
  {
    AddOnTop(c.requests, c.buffer);
    if NEWLINE !in c.buffer {
      PlainSplit(c.buffer);
    }
  }

  /** The last request handled, if any, has not timed out: nothing is held back. */
  predicate CaughtUp(c: Connection)
    reads c
  {
    c.requests == [] || c.outcome(|c.requests| - 1) != TimedOut
  }

  /** Whenever nothing is held back, however often requests timed out before: the requests handled
      are the lines received up to the first that raises, and the connection is open, with the
      unfinished tail in the buffer, exactly when none does. */
  lemma HandledUpToRaise(c: Connection)
    requires c.Valid() && CaughtUp(c)
    ensures var all := Split(Concat(c.received));
            && c.requests <= all.lines
            && (c.open <==> forall i :: 0 <= i < |all.lines| ==> c.outcome(i) != Raised)
            && (c.open ==> all == Frames(c.requests, c.buffer))
            && (!c.open ==> c.requests != [] && c.outcome(|c.requests| - 1) == Raised)
            && (forall i :: 0 <= i < |c.requests| - 1 ==> c.outcome(i) != Raised)
  {
    HandledInOrder(c);
    if c.open {
      PlainSplit(c.buffer);
      assert c.requests + [] == c.requests;
    } else {
      var last := |c.requests| - 1;
      assert c.outcome(last) == Raised && last < |Split(Concat(c.received)).lines|;
    }
  }

  /** Two ways of splitting the same bytes into reads handle the same requests and end alike, once
      neither holds anything back. */
  lemma SplitIndependent(a: Connection, b: Connection)
    requires a.Valid() && b.Valid() && Concat(a.received) == Concat(b.received)
    requires a.outcome == b.outcome && CaughtUp(a) && CaughtUp(b)
    ensures a.requests == b.requests && a.open == b.open
    ensures a.open ==> a.buffer == b.buffer
  {
    HandledUpToRaise(a);
    HandledUpToRaise(b);
    var lines := Split(Concat(a.received)).lines;
    assert a.requests == lines[..|a.requests|] && b.requests == lines[..|b.requests|];
  }

  /** In general they have handled the same requests exactly when as many lines wait in either. */
  lemma SameRequestsExactlyWhen(a: Connection, b: Connection)
    requires a.Valid() && b.Valid() && Concat(a.received) == Concat(b.received)
    ensures a.requests == b.requests <==> |Split(a.buffer).lines| == |Split(b.buffer).lines|
  {
    HandledInOrder(a);
    HandledInOrder(b);
    var lines := Split(Concat(a.received)).lines;
    assert a.requests == lines[..|a.requests|] && b.requests == lines[..|b.requests|];
  }

  lemma TwoLines(x: bv8, y: bv8)
    requires x != NEWLINE && y != NEWLINE
    ensures Concat([[x, NEWLINE, y, NEWLINE]]) == Concat([[x, NEWLINE], [y, NEWLINE]]) == [x, NEWLINE, y, NEWLINE]
    ensures Concat([[x, NEWLINE]]) == [x, NEWLINE]
    ensures Split([x, NEWLINE]) == Frames([[x]], [])
    ensures Split([x, NEWLINE, y, NEWLINE]) == Frames([[x], [y]], [])
  {
    var one, two := [x, NEWLINE], [y, NEWLINE];
    assert [one, two][..1] == [one] && [one][..0] == [] && [one + two][..0] == [];
    assert [] + one == one && [] + (one + two) == one + two == [x, NEWLINE, y, NEWLINE];
    RoundTrip([[x]], []);
    RoundTrip([[x], [y]], []);
    assert [[x], [y]][..1] == [[x]] && [[x]][..0] == [];
    assert Encode([[x]]) + [] == one && Encode([[x], [y]]) + [] == one + two;
  }

  /** The first request times out, all others are answered. */
  function FirstTimesOut(n: nat): Outcome {
    if n == 0 then TimedOut else Answered
  }

  /** Two requests of which the first times out: in one read, the second is left waiting; in two,
      both are handled. */
  method TimeoutHoldsBack(x: bv8, y: bv8) returns (a: Connection, b: Connection)
    requires x != NEWLINE && y != NEWLINE
    ensures a.Valid() && b.Valid() && Concat(a.received) == Concat(b.received) && a.outcome == b.outcome
    ensures a.requests == [[x]] && b.requests == [[x], [y]]
  {
    TwoLines(x, y);
    a := OneRead(x, y);
    b := TwoReads(x, y);
  }

  method OneRead(x: bv8, y: bv8) returns (a: Connection)
    requires x != NEWLINE && y != NEWLINE
    ensures a.Valid() && a.outcome == FirstTimesOut
    ensures a.received == [[x, NEWLINE, y, NEWLINE]] && a.requests == [[x]]
  {
    TwoLines(x, y);
    a := new Connection(FirstTimesOut);
    a.Receive([x, NEWLINE, y, NEWLINE]);
    HandledInOrder(a);
    assert a.outcome(0) == TimedOut;
    assert a.requests == [[x], [y]][..|a.requests|];
  }

  method TwoReads(x: bv8, y: bv8) returns (b: Connection)
    requires x != NEWLINE && y != NEWLINE
    ensures b.Valid() && b.outcome == FirstTimesOut
    ensures b.received == [[x, NEWLINE], [y, NEWLINE]] && b.requests == [[x], [y]]
  {
    TwoLines(x, y);
    b := new Connection(FirstTimesOut);
    b.Receive([x, NEWLINE]);
    HandledInOrder(b);
    assert b.outcome(0) == TimedOut && |b.requests| == 1;
    b.Receive([y, NEWLINE]);
    HandledInOrder(b);
  }

  /** The bytes of a list of requests, each ended by a newline. */
  function Encode(lines: seq<Bytes>): Bytes {
    if lines == [] then [] else Encode(lines[..|lines| - 1]) + lines[|lines| - 1] + [10]
  }

  /** Reading back what was sent gives the requests, in order, and the tail still being sent. */
  lemma {:induction false} RoundTrip(lines: seq<Bytes>, tail: Bytes)
    requires forall i :: 0 <= i < |lines| ==> lines[i] != [] && 10 !in lines[i]
    requires 10 !in tail
    ensures Split(Encode(lines) + tail) == Frames(lines, tail)
  {
    if lines == [] {
      AddPlain(NOTHING, tail);
      assert Encode(lines) + tail == tail && [] + tail == tail;
    } else {
      var n := |lines| - 1;
      var last := lines[n];
      RoundTrip(lines[..n], last);
      var sent := Encode(lines[..n]) + last;
      assert Encode(lines) == sent + [NEWLINE];
      AddConcat(NOTHING, Encode(lines), tail);
      assert (sent + [NEWLINE])[..|sent|] == sent;
      assert lines == lines[..n] + [last];
      AddPlain(Frames(lines, []), tail);
      assert [] + tail == tail;
    }
  }
}
