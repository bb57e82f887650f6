/** Reading a ChatGPT export: the walk up the parent links, and the pairing of turns. */
module Recipes {
  import opened Options

  /** The parent field of a node: a string, or anything else with its truth value. */
  datatype Parent = NotId(truthy: bool) | Id(id: string)

  datatype Turn = Turn(role: string, content: string)

  /** One entry of the mapping. The message is given by its cleaned role and text; an entry that
      is not an object has neither parent nor message. */
  datatype Node = NotObject | Node(parent: Parent, message: Option<Turn>)

  type Nodes = map<string, Node>

  predicate Falsy(p: Parent) {
    match p
    case NotId(truthy) => !truthy
    case Id(id) => id == ""
  }

  // ---- The parent chain ----

  predicate IsObject(nodes: Nodes, id: string) {
    id in nodes && nodes[id].Node?
  }

  /** `chain` lists `start`, its parent, that one's parent, and so on, with no repetition, and
      cannot be continued: the next parent is no id, leads to no object, or was met before. */
  ghost predicate ParentChain(nodes: Nodes, start: string, chain: seq<string>) {
    && (forall i :: 0 <= i < |chain| ==> IsObject(nodes, chain[i]))
    && (forall i, j :: 0 <= i < j < |chain| ==> chain[i] != chain[j])
    && (chain == [] ==> !IsObject(nodes, start))
    && (chain != [] ==> chain[0] == start)
    && (forall i :: 0 <= i < |chain| - 1 ==> nodes[chain[i]].parent == Id(chain[i + 1]))
    && (chain != [] ==> Stops(nodes, chain, nodes[chain[|chain| - 1]].parent))
  }

  predicate Stops(nodes: Nodes, chain: seq<string>, next: Parent) {
    next.Id? ==> !IsObject(nodes, next.id) || next.id in chain
  }

  method Walk(nodes: Nodes, start: string) returns (chain: seq<string>)
    ensures ParentChain(nodes, start, chain)
  {
    chain := [];
    var seen: set<string> := {};
    var node := Id(start);
    while node.Id? && node.id in nodes && node.id !in seen
      invariant seen == set id | id in chain
      invariant forall i :: 0 <= i < |chain| ==> IsObject(nodes, chain[i])
      invariant forall i, j :: 0 <= i < j < |chain| ==> chain[i] != chain[j]
      invariant forall i :: 0 <= i < |chain| - 1 ==> nodes[chain[i]].parent == Id(chain[i + 1])
      invariant if chain == [] then node == Id(start)
                else chain[0] == start && node == nodes[chain[|chain| - 1]].parent
      decreases nodes.Keys - seen
    {
      if !nodes[node.id].Node? {
        return;
      }
      seen := seen + {node.id};
      chain := chain + [node.id];
      node := nodes[node.id].parent;
    }
  }

  /** There is only one such chain. */
  lemma ChainIsUnique(nodes: Nodes, start: string, a: seq<string>, b: seq<string>)
    requires ParentChain(nodes, start, a) && ParentChain(nodes, start, b)
    ensures a == b
  {
    if |a| <= |b| {
      SamePrefix(nodes, start, a, b, |a|);
      NoLonger(nodes, start, a, b);
    } else {
      SamePrefix(nodes, start, b, a, |b|);
      NoLonger(nodes, start, b, a);
    }
  }

  lemma {:induction false} SamePrefix(nodes: Nodes, start: string, a: seq<string>, b: seq<string>, n: nat)
    requires ParentChain(nodes, start, a) && ParentChain(nodes, start, b)
    requires n <= |a| <= |b|
    ensures a[..n] == b[..n]
  {
    if n > 0 {
      SamePrefix(nodes, start, a, b, n - 1);
      if n > 1 {
        assert nodes[a[n - 2]].parent == Id(a[n - 2 + 1]) && nodes[b[n - 2]].parent == Id(b[n - 2 + 1]);
        assert a[..n - 1][n - 2] == b[..n - 1][n - 2];
      }
      assert a[..n] == a[..n - 1] + [a[n - 1]] && b[..n] == b[..n - 1] + [b[n - 1]];
    }
  }

  /** Past any of its members but the last, a chain goes on to an object not met before. */
  lemma GoesOn(nodes: Nodes, start: string, chain: seq<string>, m: nat)
    requires ParentChain(nodes, start, chain) && 0 < m < |chain|
    ensures !Stops(nodes, chain[..m], nodes[chain[m - 1]].parent)
  {
    assert nodes[chain[m - 1]].parent == Id(chain[m - 1 + 1]);
  }

  lemma NoLonger(nodes: Nodes, start: string, a: seq<string>, b: seq<string>)
    requires ParentChain(nodes, start, a) && ParentChain(nodes, start, b)
    requires |a| <= |b| && a == b[..|a|]
    ensures a == b
  {
    if 0 < |a| < |b| {
      GoesOn(nodes, start, b, |a|);
    }
  }

  // ---- Reaching the top ----

  /** The n-th ancestor, climbing through objects only. */
  function Climb(nodes: Nodes, start: string, n: nat): Option<string> {
    if n == 0 then Some(start)
    else
      var below := Climb(nodes, start, n - 1);
      if below.Some? && IsObject(nodes, below.value) && nodes[below.value].parent.Id?
      then Some(nodes[below.value].parent.id) else None
  }

  /** An object from which the walk cannot climb on, its parent being no string. (The tip is chosen
      by another test, `Parentless`: the parent is false, which an empty string also is.) */
  predicate IsTop(nodes: Nodes, id: Option<string>) {
    id.Some? && IsObject(nodes, id.value) && nodes[id.value].parent.NotId?
  }

  lemma {:induction false} ChainClimbs(nodes: Nodes, start: string, chain: seq<string>, n: nat)
    requires ParentChain(nodes, start, chain) && n < |chain|
    ensures Climb(nodes, start, n) == Some(chain[n])
  {
    if n > 0 {
      ChainClimbs(nodes, start, chain, n - 1);
      assert nodes[chain[n - 1]].parent == Id(chain[n - 1 + 1]);
    }
  }

  lemma {:induction false} NoTopAbove(nodes: Nodes, start: string, chain: seq<string>, n: nat)
    requires ParentChain(nodes, start, chain) && chain != []
    requires nodes[chain[|chain| - 1]].parent.Id?
    ensures var c := Climb(nodes, start, n);
            !IsTop(nodes, c) && (c.Some? ==> c.value in chain || !IsObject(nodes, c.value))
  {
    if n > 0 {
      NoTopAbove(nodes, start, chain, n - 1);
    } else {
      assert chain[0] in chain;
    }
    var c := Climb(nodes, start, n);
    if n > 0 && c.Some? {
      NextUp(nodes, start, chain, Climb(nodes, start, n - 1).value);
    }
    if c.Some? && c.value in chain {
      NextUp(nodes, start, chain, c.value);
    }
  }

  /** From a chain that stops at an id, every member's parent is an id: a member or no object. */
  lemma NextUp(nodes: Nodes, start: string, chain: seq<string>, id: string)
    requires ParentChain(nodes, start, chain) && id in chain
    requires nodes[chain[|chain| - 1]].parent.Id?
    ensures var p := nodes[id].parent;
            p.Id? && (p.id in chain || !IsObject(nodes, p.id))
  {
    var i :| 0 <= i < |chain| && chain[i] == id;
    if i < |chain| - 1 {
      assert nodes[chain[i]].parent == Id(chain[i + 1]);
    }
  }

  ghost predicate ReachesTop(nodes: Nodes, start: string) {
    exists n: nat :: IsTop(nodes, Climb(nodes, start, n))
  }

  /** The walk ends at a top if and only if climbing from the start ever meets one. */
  lemma WalkReachesTopExactlyWhen(nodes: Nodes, start: string, chain: seq<string>)
    requires ParentChain(nodes, start, chain)
    ensures (chain != [] && nodes[chain[|chain| - 1]].parent.NotId?) <==> ReachesTop(nodes, start)
  {
    if chain == [] {
      forall n: nat ensures !IsTop(nodes, Climb(nodes, start, n)) {
        ClimbFromNothing(nodes, start, n);
      }
    } else if nodes[chain[|chain| - 1]].parent.NotId? {
      ChainClimbs(nodes, start, chain, |chain| - 1);
      assert IsTop(nodes, Climb(nodes, start, |chain| - 1));
    } else {
      forall n: nat ensures !IsTop(nodes, Climb(nodes, start, n)) {
        NoTopAbove(nodes, start, chain, n);
      }
    }
  }

  lemma {:induction false} ClimbFromNothing(nodes: Nodes, start: string, n: nat)
    requires !IsObject(nodes, start)
    ensures Climb(nodes, start, n) == if n == 0 then Some(start) else None
  {
    if n > 0 {
      ClimbFromNothing(nodes, start, n - 1);
    }
  }

  /** In a closed mapping without cycles every walk ends at a top. */
  lemma AcyclicWalkReachesTop(nodes: Nodes, start: string, chain: seq<string>, rank: string -> nat)
    requires ParentChain(nodes, start, chain) && IsObject(nodes, start)
    requires forall id :: IsObject(nodes, id) && nodes[id].parent.Id? ==>
                            IsObject(nodes, nodes[id].parent.id) && rank(nodes[id].parent.id) < rank(id)
    ensures nodes[chain[|chain| - 1]].parent.NotId?
  {
    var last := chain[|chain| - 1];
    if nodes[last].parent.Id? {
      var i :| 0 <= i < |chain| && chain[i] == nodes[last].parent.id;
      RanksFall(nodes, start, chain, rank, i, |chain| - 1);
    }
  }

  lemma {:induction false} RanksFall(nodes: Nodes, start: string, chain: seq<string>, rank: string -> nat,
                                     i: nat, j: nat)
    requires ParentChain(nodes, start, chain) && i <= j < |chain|
    requires forall id :: IsObject(nodes, id) && nodes[id].parent.Id? ==> rank(nodes[id].parent.id) < rank(id)
    ensures rank(chain[j]) <= rank(chain[i])
    decreases j - i
  {
    if i < j {
      RanksFall(nodes, start, chain, rank, i, j - 1);
      assert nodes[chain[j - 1]].parent == Id(chain[j - 1 + 1]);
    }
  }

  // ---- The messages ----

  function Reversed<T>(s: seq<T>): (r: seq<T>)
    ensures |r| == |s| && forall i :: 0 <= i < |s| ==> r[i] == s[|s| - 1 - i]
  {
    seq(|s|, i requires 0 <= i < |s| => s[|s| - 1 - i])
  }

  /** The turn a node contributes: a message with text, by the user, the assistant or the system. */
  function TurnOf(node: Node): seq<Turn> {
    if node.Node? && node.message.Some? && node.message.value.content != ""
       && node.message.value.role in {"user", "assistant", "system"}
    then [node.message.value] else []
  }

  /** A text by the user, the assistant or the system. */
  predicate SaysSomething(t: Turn) {
    t.content != "" && (t.role == "user" || t.role == "assistant" || t.role == "system")
  }

  lemma TurnCounts(message: Turn, parent: Parent)
    ensures TurnOf(Node(parent, None)) == TurnOf(NotObject) == []
    ensures TurnOf(Node(parent, Some(message))) == if SaysSomething(message) then [message] else []
  {
  }

  function TurnsAlong(nodes: Nodes, path: seq<string>): seq<Turn>
    requires forall i :: 0 <= i < |path| ==> path[i] in nodes
  {
    if path == [] then []
    else TurnsAlong(nodes, path[..|path| - 1]) + TurnOf(nodes[path[|path| - 1]])
  }

  /** `keys` is the mapping's insertion order and `current` the tip named by the export. */
  datatype Export = Export(keys: seq<string>, nodes: Nodes, current: Option<string>)

  ghost predicate KeysListed(e: Export) {
    forall id :: id in e.keys <==> id in e.nodes
  }

  predicate Parentless(node: Node) {
    node.Node? && Falsy(node.parent)
  }

  /** The tip the walk begins at: the current node, else the first entry without a parent. */
  ghost predicate IsTip(e: Export, start: Option<string>) {
    if e.current.Some? && e.current.value in e.nodes then start == e.current
    else if exists k :: 0 <= k < |e.keys| && e.keys[k] in e.nodes && Parentless(e.nodes[e.keys[k]])
    then exists k :: 0 <= k < |e.keys| && e.keys[k] in e.nodes && start == Some(e.keys[k])
                     && Parentless(e.nodes[e.keys[k]])
                     && forall j :: 0 <= j < k && e.keys[j] in e.nodes ==> !Parentless(e.nodes[e.keys[j]])
    else start == None
  }

  method FindTip(e: Export) returns (start: Option<string>)
    requires KeysListed(e)
    ensures IsTip(e, start)
    ensures start.Some? && start != e.current ==>
              && start.value in e.nodes && e.nodes[start.value].Node?
              && e.nodes[start.value].parent in {NotId(false), Id("")}
    ensures start.None? ==> forall id :: id in e.nodes && e.nodes[id].Node? ==>
                                           e.nodes[id].parent !in {NotId(false), Id("")}
  {
    if e.current.Some? && e.current.value in e.nodes {
      return e.current;
    }
    for k := 0 to |e.keys|
      invariant forall j :: 0 <= j < k ==> !Parentless(e.nodes[e.keys[j]])
    {
      if Parentless(e.nodes[e.keys[k]]) {
        return Some(e.keys[k]);
      }
    }
    return None;
  }

  /** The messages along the parent chain of the tip, root first; none without a tip. */
  ghost predicate IsLinear(e: Export, out: seq<Turn>) {
    exists start :: IsTip(e, start) &&
                    if start == None || start == Some("") then out == []
                    else exists chain ::
                           ParentChain(e.nodes, start.value, chain) && out == TurnsAlong(e.nodes, Reversed(chain))
  }

  method LinearMessages(e: Export) returns (out: seq<Turn>)
    requires KeysListed(e)
    ensures IsLinear(e, out)
    ensures forall t :: t in out ==> SaysSomething(t)
  {
    var start := FindTip(e);
    if start == None || start == Some("") {
      return [];
    }
    var chain := Walk(e.nodes, start.value);
    out := Collect(e.nodes, Reversed(chain));
    assert ParentChain(e.nodes, start.value, chain) && out == TurnsAlong(e.nodes, Reversed(chain));
  }

  method Collect(nodes: Nodes, path: seq<string>) returns (out: seq<Turn>)
    requires forall i :: 0 <= i < |path| ==> path[i] in nodes && nodes[path[i]].Node?
    ensures out == TurnsAlong(nodes, path)
    ensures forall t :: t in out ==> SaysSomething(t)
  {
    out := [];
    for i := 0 to |path|
      invariant out == TurnsAlong(nodes, path[..i])
      invariant forall t :: t in out ==> SaysSomething(t)
    {
      assert path[..i + 1][..i] == path[..i];
      var node := nodes[path[i]];
      if node.message.None? {
        continue;
      }
      if node.message.value.content == "" {
        continue;
      }
      if node.message.value.role in {"user", "assistant", "system"} {
        out := out + [node.message.value];
      }
    }
    assert path[..|path|] == path;
  }

  /** One message list only meets that description. */
  lemma LinearIsUnique(e: Export, a: seq<Turn>, b: seq<Turn>)
    requires IsLinear(e, a) && IsLinear(e, b)
    ensures a == b
  {
    var s :| IsTip(e, s) &&
             if s == None || s == Some("") then a == []
             else exists chain :: ParentChain(e.nodes, s.value, chain) && a == TurnsAlong(e.nodes, Reversed(chain));
    var t :| IsTip(e, t) &&
             if t == None || t == Some("") then b == []
             else exists chain :: ParentChain(e.nodes, t.value, chain) && b == TurnsAlong(e.nodes, Reversed(chain));
    TipIsUnique(e, s, t);
    if s != None && s != Some("") {
      var c :| ParentChain(e.nodes, s.value, c) && a == TurnsAlong(e.nodes, Reversed(c));
      var d :| ParentChain(e.nodes, t.value, d) && b == TurnsAlong(e.nodes, Reversed(d));
      ChainIsUnique(e.nodes, s.value, c, d);
    }
  }

  lemma TipIsUnique(e: Export, s: Option<string>, t: Option<string>)
    requires IsTip(e, s) && IsTip(e, t)
    ensures s == t
  {
    if !(e.current.Some? && e.current.value in e.nodes) && s.Some? && t.Some? {
      var i :| 0 <= i < |e.keys| && e.keys[i] in e.nodes && s == Some(e.keys[i]) && Parentless(e.nodes[e.keys[i]])
               && forall j :: 0 <= j < i && e.keys[j] in e.nodes ==> !Parentless(e.nodes[e.keys[j]]);
      var k :| 0 <= k < |e.keys| && e.keys[k] in e.nodes && t == Some(e.keys[k]) && Parentless(e.nodes[e.keys[k]])
               && forall j :: 0 <= j < k && e.keys[j] in e.nodes ==> !Parentless(e.nodes[e.keys[j]]);
      assert i == k;
    }
  }

  // ---- Pairs ----

  predicate Speaks(m: Turn) {
    m.content != "" && (m.role == "user" || m.role == "assistant")
  }

  /** The non-empty user and assistant turns. */
  function Spoken(messages: seq<Turn>): seq<Turn> {
    if messages == [] then []
    else
      var m := messages[|messages| - 1];
      Spoken(messages[..|messages| - 1]) + (if Speaks(m) then [m] else [])
  }

  /** Every user turn directly followed by an assistant turn. */
  function Adjacent(turns: seq<Turn>): seq<(string, string)> {
    if |turns| < 2 then []
    else
      var n := |turns| - 1;
      Adjacent(turns[..n])
      + (if turns[n].role == "assistant" && turns[n - 1].role == "user"
         then [(turns[n - 1].content, turns[n].content)] else [])
  }

  /** The user turn that an assistant turn would answer now, or nothing. */
  function OpenUser(turns: seq<Turn>): string {
    if turns != [] && turns[|turns| - 1].role == "user" then turns[|turns| - 1].content else ""
  }

  method PairsFromTurnMessages(messages: seq<Turn>) returns (pairs: seq<(string, string)>)
    ensures pairs == Adjacent(Spoken(messages))
  {
    pairs := [];
    var user := "";
    for i := 0 to |messages|
      invariant pairs == Adjacent(Spoken(messages[..i]))
      invariant user == OpenUser(Spoken(messages[..i]))
    {
      var m := messages[i];
      assert messages[..i + 1] == messages[..i] + [m];
      PairsSnoc(messages[..i], m);
      if m.role == "user" && m.content != "" {
        user := m.content;
      } else if m.role == "assistant" && m.content != "" && user != "" {
        pairs := pairs + [(user, m.content)];
        user := "";
      }
    }
    assert messages[..|messages|] == messages;
  }

  /** One more message. */
  lemma PairsSnoc(messages: seq<Turn>, m: Turn)
    ensures var turns, next := Spoken(messages), Spoken(messages + [m]);
            && Adjacent(next) == (if m.role == "assistant" && m.content != "" && OpenUser(turns) != ""
                                  then Adjacent(turns) + [(OpenUser(turns), m.content)] else Adjacent(turns))
            && OpenUser(next) == (if !Speaks(m) then OpenUser(turns)
                                  else if m.role == "user" then m.content else "")
  {
    SpokenSnoc(messages, m);
    AdjacentSnoc(Spoken(messages), m);
    SpokenSpeak(messages);
  }

  lemma SpokenSnoc(messages: seq<Turn>, m: Turn)
    ensures Spoken(messages + [m]) == if Speaks(m) then Spoken(messages) + [m] else Spoken(messages)
  {
    assert (messages + [m])[..|messages|] == messages;
    assert Spoken(messages) + [] == Spoken(messages);
  }

  lemma AdjacentSnoc(turns: seq<Turn>, m: Turn)
    ensures Adjacent(turns + [m]) ==
            if turns != [] && turns[|turns| - 1].role == "user" && m.role == "assistant"
            then Adjacent(turns) + [(turns[|turns| - 1].content, m.content)] else Adjacent(turns)
  {
    assert (turns + [m])[..|turns|] == turns;
    assert Adjacent(turns) + [] == Adjacent(turns);
  }

  lemma {:induction false} SpokenSpeak(messages: seq<Turn>)
    ensures forall i :: 0 <= i < |Spoken(messages)| ==> Speaks(Spoken(messages)[i])
  {
    if messages != [] {
      SpokenSpeak(messages[..|messages| - 1]);
    }
  }
}
