/** Finding, joining and replacing in strings. */
module Texts {
  import opened Options

  predicate Contains(s: string, w: string) {
    exists i :: 0 <= i <= |s| - |w| && s[i..][..|w|] == w
  }

  /** The parts with a separator between neighbours. */
  function Join(parts: seq<string>, sep: string): string {
    if parts == [] then ""
    else if |parts| == 1 then parts[0]
    else Join(parts[..|parts| - 1], sep) + sep + parts[|parts| - 1]
  }

  function Concat(parts: seq<string>): string {
    if parts == [] then "" else Concat(parts[..|parts| - 1]) + parts[|parts| - 1]
  }

  /** Where a mark first begins. */
  function Find(s: string, mark: string): Option<nat> {
    if |s| < |mark| then None
    else if s[..|mark|] == mark then Some(0)
    else
      var k := Find(s[1..], mark);
      if k.Some? then Some(k.value + 1) else None
  }

  /** A mark that no two overlapping places can hold: its last character occurs in it only there. */
  predicate IsMark(mark: string) {
    mark != "" && forall i :: 0 <= i < |mark| - 1 ==> mark[i] != mark[|mark| - 1]
  }

  // ---- Joining from the front ----

  lemma {:induction false} JoinCons(p: string, rest: seq<string>, sep: string)
    requires rest != []
    ensures Join([p] + rest, sep) == p + sep + Join(rest, sep)
  {
    var n := |rest| - 1;
    var all, front, last := [p] + rest, rest[..n], rest[n];
    assert all[..|all| - 1] == [p] + front;
    if n > 0 {
      JoinCons(p, front, sep);
      assert p + sep + Join(front, sep) + sep + last == p + sep + (Join(front, sep) + sep + last);
    } else {
      assert [p] + front == [p];
    }
  }

  lemma {:induction false} ConcatCons(p: string, rest: seq<string>)
    ensures Concat([p] + rest) == p + Concat(rest)
  {
    var all := [p] + rest;
    if rest == [] {
      assert all == [p] && [p][..0] == [];
      assert "" + p == p == p + "";
    } else {
      var n := |rest| - 1;
      assert all[..|all| - 1] == [p] + rest[..n];
      ConcatCons(p, rest[..n]);
      assert p + Concat(rest[..n]) + rest[n] == p + (Concat(rest[..n]) + rest[n]);
    }
  }

  // ---- The first mark ----

  lemma ContainsLater(s: string, mark: string)
    requires s != "" && Contains(s[1..], mark)
    ensures Contains(s, mark)
  {
    var i :| 0 <= i <= |s[1..]| - |mark| && s[1..][i..][..|mark|] == mark;
    assert s[i + 1..][..|mark|] == mark;
  }

  /** No mark begins before the one that follows a text without marks. */
  lemma NotYet(s: string, mark: string, rest: string)
    requires IsMark(mark) && s != "" && !Contains(s, mark)
    ensures (s + mark + rest)[..|mark|] != mark
  {
    var all, n := s + mark + rest, |mark|;
    if |s| >= n {
      assert all[..n] == s[..n] == s[0..][..n];
    } else {
      assert all[n - 1] == mark[n - 1 - |s|];
    }
  }

  lemma {:induction false} FindFirst(s: string, mark: string, rest: string)
    requires IsMark(mark) && !Contains(s, mark)
    ensures Find(s + mark + rest, mark) == Some(|s|)
  {
    var all := s + mark + rest;
    if s == "" {
      assert all[..|mark|] == mark;
    } else {
      NotYet(s, mark, rest);
      if Contains(s[1..], mark) {
        ContainsLater(s, mark);
      }
      FindFirst(s[1..], mark, rest);
      assert all[1..] == s[1..] + mark + rest;
    }
  }

  lemma {:induction false} FindLeast(s: string, mark: string, i: nat)
    requires i <= |s| - |mark| && s[i..][..|mark|] == mark
    ensures Find(s, mark).Some? && Find(s, mark).value <= i
  {
    if s[..|mark|] != mark {
      assert i > 0 by {
        assert s[0..] == s;
      }
      assert s[1..][i - 1..] == s[i..];
      FindLeast(s[1..], mark, i - 1);
    }
  }

  lemma {:induction false} FindHolds(s: string, mark: string)
    ensures var k := Find(s, mark);
            k.Some? ==> k.value + |mark| <= |s| && s[k.value..][..|mark|] == mark
  {
    if |s| >= |mark| {
      if s[..|mark|] == mark {
        assert s[0..] == s;
      } else {
        FindHolds(s[1..], mark);
        var k := Find(s[1..], mark);
        if k.Some? {
          assert s[1..][k.value..] == s[k.value + 1..];
        }
      }
    }
  }

  lemma CutAt(s: string, mark: string, k: nat)
    requires k + |mark| <= |s| && s[k..][..|mark|] == mark
    ensures s == s[..k] + mark + s[k + |mark|..]
  {
    assert s[k..][|mark|..] == s[k + |mark|..];
    assert s == s[..k] + s[k..] && s[k..] == s[k..][..|mark|] + s[k..][|mark|..];
  }

  lemma NoneBefore(s: string, mark: string, k: nat)
    requires Find(s, mark) == Some(k) && k <= |s| && mark != ""
    ensures !Contains(s[..k], mark)
  {
    var front := s[..k];
    if Contains(front, mark) {
      var i :| 0 <= i <= |front| - |mark| && front[i..][..|mark|] == mark;
      assert s[i..][..|mark|] == front[i..][..|mark|];
      FindLeast(s, mark, i);
    }
  }

  /** A text holds a mark exactly when one is found, and none before it. */
  lemma FindMeans(s: string, mark: string)
    requires mark != ""
    ensures Find(s, mark).Some? <==> Contains(s, mark)
    ensures var k := Find(s, mark);
            k.Some? ==> && k.value + |mark| <= |s| && s == s[..k.value] + mark + s[k.value + |mark|..]
                        && !Contains(s[..k.value], mark)
  {
    FindHolds(s, mark);
    var k := Find(s, mark);
    if Contains(s, mark) {
      var i :| 0 <= i <= |s| - |mark| && s[i..][..|mark|] == mark;
      FindLeast(s, mark, i);
    }
    if k.Some? {
      CutAt(s, mark, k.value);
      NoneBefore(s, mark, k.value);
    }
  }

  // ---- Taking a text apart ----

  /** The text after a prefix. */
  function Drop(text: string, prefix: string): (r: Option<string>)
    ensures r.Some? ==> |r.value| <= |text|
  {
    if |prefix| <= |text| && text[..|prefix|] == prefix then Some(text[|prefix|..]) else None
  }

  /** The text before the first mark, and the text after it. */
  function Cut(text: string, mark: string): (r: Option<(string, string)>)
    requires mark != ""
    ensures r.Some? ==> |r.value.1| < |text|
  {
    FindHolds(text, mark);
    var k := Find(text, mark);
    if k.Some? then Some((text[..k.value], text[k.value + |mark|..])) else None
  }

  lemma DropFirst(prefix: string, rest: string)
    ensures Drop(prefix + rest, prefix) == Some(rest)
  {
    assert (prefix + rest)[..|prefix|] == prefix && (prefix + rest)[|prefix|..] == rest;
  }

  lemma CutFirst(s: string, mark: string, rest: string)
    requires IsMark(mark) && !Contains(s, mark)
    ensures Cut(s + mark + rest, mark) == Some((s, rest))
  {
    FindFirst(s, mark, rest);
    var all := s + mark + rest;
    assert all[..|s|] == s && all[|s| + |mark|..] == rest;
  }
}
