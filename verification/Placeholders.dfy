/** What filling the job id into a path means. */
module Placeholders {
  import opened Texts

  const PLACEHOLDER := "{job_id}"

  /** The path with every placeholder replaced by the job id, left to right. */
  function Expand(path: string, id: string): string {
    var n := |PLACEHOLDER|;
    if |path| < n then path
    else if path[..n] == PLACEHOLDER then id + Expand(path[n..], id)
    else [path[0]] + Expand(path[1..], id)
  }

  ghost predicate WithoutPlaceholder(parts: seq<string>) {
    forall i :: 0 <= i < |parts| ==> !Contains(parts[i], "{job_id}")
  }

  /** `out` has the id exactly where `path` has the placeholder. */
  ghost predicate FilledBy(path: string, id: string, out: string, parts: seq<string>) {
    parts != [] && WithoutPlaceholder(parts) && path == Join(parts, "{job_id}") && out == Join(parts, id)
  }

  ghost predicate FilledIn(path: string, id: string, out: string) {
    exists parts :: FilledBy(path, id, out, parts)
  }

  lemma PlaceholderIsMark()
    ensures IsMark(PLACEHOLDER)
  {
  }

  lemma {:induction false} ExpandNone(path: string, id: string)
    requires !Contains(path, PLACEHOLDER)
    ensures Expand(path, id) == path
  {
    var n := |PLACEHOLDER|;
    if |path| >= n {
      assert path[..n] != PLACEHOLDER by {
        assert path[0..] == path;
      }
      if Contains(path[1..], PLACEHOLDER) {
        ContainsLater(path, PLACEHOLDER);
      }
      ExpandNone(path[1..], id);
    }
  }

  lemma {:induction false} ExpandFirst(front: string, rest: string, id: string)
    requires !Contains(front, PLACEHOLDER)
    ensures Expand(front + PLACEHOLDER + rest, id) == front + id + Expand(rest, id)
  {
    var path, n := front + PLACEHOLDER + rest, |PLACEHOLDER|;
    PlaceholderIsMark();
    if front == "" {
      assert path[..n] == PLACEHOLDER && path[n..] == rest;
      assert "" + id == id;
    } else {
      NotYet(front, PLACEHOLDER, rest);
      if Contains(front[1..], PLACEHOLDER) {
        ContainsLater(front, PLACEHOLDER);
      }
      ExpandFirst(front[1..], rest, id);
      assert path[1..] == front[1..] + PLACEHOLDER + rest && path[0] == front[0];
      assert [front[0]] + (front[1..] + id + Expand(rest, id)) == front + id + Expand(rest, id);
    }
  }

  /** Filling in is expanding, whatever the parts. */
  lemma {:induction false} FilledIsExpanded(path: string, id: string, out: string, parts: seq<string>)
    requires FilledBy(path, id, out, parts)
    ensures out == Expand(path, id)
    decreases |parts|
  {
    var p, rest := parts[0], parts[1..];
    if rest == [] {
      ExpandNone(p, id);
    } else {
      assert parts == [p] + rest;
      JoinCons(p, rest, PLACEHOLDER);
      JoinCons(p, rest, id);
      FilledIsExpanded(Join(rest, PLACEHOLDER), id, Join(rest, id), rest);
      ExpandFirst(p, Join(rest, PLACEHOLDER), id);
    }
  }

  lemma {:induction false} Parts(path: string, id: string) returns (parts: seq<string>)
    ensures FilledBy(path, id, Expand(path, id), parts)
    decreases |path|
  {
    FindMeans(path, PLACEHOLDER);
    var k := Find(path, PLACEHOLDER);
    if k.None? {
      parts := [path];
      ExpandNone(path, id);
    } else {
      var front, rest := path[..k.value], path[k.value + |PLACEHOLDER|..];
      var more := Parts(rest, id);
      parts := [front] + more;
      ExpandFirst(front, rest, id);
      JoinCons(front, more, PLACEHOLDER);
      JoinCons(front, more, id);
    }
  }

  /** Expanding gives the one path that has the id in place of every placeholder. */
  lemma ExpandFillsIn(path: string, id: string, out: string)
    ensures FilledIn(path, id, out) <==> out == Expand(path, id)
  {
    if parts :| FilledBy(path, id, out, parts) {
      FilledIsExpanded(path, id, out, parts);
    }
    if out == Expand(path, id) {
      var parts := Parts(path, id);
    }
  }

  lemma {:induction false} ExpandLength(path: string, id: string)
    ensures |id| <= |PLACEHOLDER| ==> |Expand(path, id)| <= |path|
    ensures |id| >= |PLACEHOLDER| ==> |Expand(path, id)| >= |path|
    decreases |path|
  {
    var n := |PLACEHOLDER|;
    if |path| >= n {
      if path[..n] == PLACEHOLDER {
        ExpandLength(path[n..], id);
      } else {
        ExpandLength(path[1..], id);
      }
    }
  }

  /** A path changes exactly when it holds the placeholder. */
  lemma UnchangedExactlyWhen(path: string, id: string)
    requires id != "{job_id}"
    ensures Expand(path, id) == path <==> !Contains(path, "{job_id}")
  {
    FindMeans(path, PLACEHOLDER);
    var k := Find(path, PLACEHOLDER);
    if k.None? {
      ExpandNone(path, id);
    } else {
      var front, rest := path[..k.value], path[k.value + |PLACEHOLDER|..];
      ExpandFirst(front, rest, id);
      ExpandLength(rest, id);
      var out := front + id + Expand(rest, id);
      if |id| == |PLACEHOLDER| {
        assert out[|front|..][..|id|] == id && path[|front|..][..|id|] == PLACEHOLDER;
      }
    }
  }
}
