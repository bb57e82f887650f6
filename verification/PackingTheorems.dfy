/** What the packer guarantees: nothing lost or split, every block fits, and no cutting uses fewer blocks. */
module PackingTheorems {
  import opened Options
  import opened Packing

  lemma FlattenSnoc<T>(s: seq<seq<T>>, g: seq<T>)
    ensures Flatten(s + [g]) == Flatten(s) + g
  {
    assert (s + [g])[..|s|] == s;
  }

  // ---- Conservation and fit ----

  ghost predicate Fits(groups: seq<seq<Row>>, max: nat) {
    forall i :: 0 <= i < |groups| ==> groups[i] != [] && 1 <= Size(groups[i]) <= max
  }

  lemma PlaceFits(groups: seq<seq<Row>>, row: Row, max: nat)
    requires Fits(groups, max) && 1 <= |row.ids| <= max
    ensures Fits(Place(groups, row, max), max)
  {
    JoinOne(row);
    if groups != [] {
      JoinSnoc(groups[|groups| - 1], row);
    }
  }

  lemma PlaceFlattens(groups: seq<seq<Row>>, row: Row, max: nat)
    ensures Flatten(Place(groups, row, max)) == Flatten(groups) + [row]
  {
    var m := |groups| - 1;
    if groups != [] && Size(groups[m]) + |row.ids| <= max {
      var front, last := groups[..m], groups[m];
      assert groups == front + [last];
      FlattenSnoc(front, last);
      FlattenSnoc(front, last + [row]);
      assert Flatten(front) + (last + [row]) == Flatten(front) + last + [row];
    } else {
      FlattenSnoc(groups, [row]);
    }
  }

  /** The greedy groups hold the rows in order, whole, and each fits a block. */
  lemma {:induction false} GreedyCuts(rows: seq<Row>, max: nat)
    requires Normal(rows, max)
    ensures Flatten(Greedy(rows, max)) == rows
    ensures Fits(Greedy(rows, max), max)
  {
    if rows != [] {
      var before, row := rows[..|rows| - 1], rows[|rows| - 1];
      assert rows == before + [row];
      GreedyCuts(before, max);
      PlaceFits(Greedy(before, max), row, max);
      PlaceFlattens(Greedy(before, max), row, max);
    }
  }

  lemma {:induction false} JoinConcat(a: seq<Row>, b: seq<Row>)
    ensures JoinIds(a + b) == JoinIds(a) + JoinIds(b)
    ensures JoinLabels(a + b) == JoinLabels(a) + JoinLabels(b)
    ensures Size(a + b) == Size(a) + Size(b)
    decreases |b|
  {
    if b == [] {
      assert a + b == a;
    } else {
      var n := |b| - 1;
      var c, row := b[..n], b[n];
      assert a + b == (a + c) + [row];
      JoinSnoc(a + c, row);
      JoinConcat(a, c);
      assert JoinIds(a) + JoinIds(c) + row.ids == JoinIds(a) + (JoinIds(c) + row.ids);
      assert JoinLabels(a) + JoinLabels(c) + row.labels == JoinLabels(a) + (JoinLabels(c) + row.labels);
    }
  }

  lemma {:induction false} BlocksConcatenate(groups: seq<seq<Row>>)
    ensures Flatten(IdBlocks(groups)) == JoinIds(Flatten(groups))
    ensures Flatten(LabelBlocks(groups)) == JoinLabels(Flatten(groups))
  {
    if groups != [] {
      var m := |groups| - 1;
      BlocksConcatenate(groups[..m]);
      BlocksSnoc(groups[..m], groups[m]);
      assert groups == groups[..m] + [groups[m]];
      FlattenSnoc(IdBlocks(groups[..m]), JoinIds(groups[m]));
      FlattenSnoc(LabelBlocks(groups[..m]), JoinLabels(groups[m]));
      JoinConcat(Flatten(groups[..m]), groups[m]);
    }
  }

  /** Concatenating the packed blocks gives back the normalized rows in order, ids and labels
      alike, and every block is non-empty, within the limit and as long as its labels. */
  lemma PackedBlocksAreTheRows(rows: seq<Row>, max: nat)
    requires Normal(rows, max)
    ensures var ids, labels := IdBlocks(Greedy(rows, max)), LabelBlocks(Greedy(rows, max));
            && Flatten(ids) == JoinIds(rows)
            && Flatten(labels) == JoinLabels(rows)
            && |ids| == |labels|
            && forall i :: 0 <= i < |ids| ==> 1 <= |ids[i]| == |labels[i]| <= max
  {
    var groups := Greedy(rows, max);
    GreedyCuts(rows, max);
    BlocksConcatenate(groups);
    forall i | 0 <= i < |groups| ensures 1 <= |JoinIds(groups[i])| == |JoinLabels(groups[i])| <= max {
      JoinLength(groups[i]);
      GroupsHoldRows(rows, max, i);
      forall j | 0 <= j < |groups[i]| ensures |groups[i][j].ids| == |groups[i][j].labels| {
        assert groups[i][j] in groups[i];
      }
    }
  }

  // ---- Fewest blocks ----

  /** `g` is ahead of `h`: fewer groups, or as many with no more in the last one. */
  ghost predicate Ahead(g: seq<seq<Row>>, h: seq<seq<Row>>) {
    |g| < |h| || (|g| == |h| && (g == [] || Size(g[|g| - 1]) <= Size(h[|h| - 1])))
  }

  lemma {:induction false} FlattenEnd<T>(s: seq<seq<T>>, rows: seq<T>)
    requires rows != [] && s != [] && Flatten(s) == rows && s[|s| - 1] != []
    ensures var m, n := |s| - 1, |rows| - 1;
            var g := s[m];
            && g[|g| - 1] == rows[n]
            && Flatten(s[..m]) + g[..|g| - 1] == rows[..n]
  {
  }

  /** Greedy stays ahead of every other way of cutting the same rows. */
  lemma {:induction false} GreedyStaysAhead(rows: seq<Row>, max: nat, other: seq<seq<Row>>)
    requires Normal(rows, max) && Cutting(other, rows, max)
    ensures Ahead(Greedy(rows, max), other)
    decreases |rows|, |other|
  {
    if rows != [] {
      assert other != [];
      var m, n := |other| - 1, |rows| - 1;
      var last, row := other[m], rows[n];
      if last == [] {
        assert Flatten(other[..m]) + [] == Flatten(other[..m]);
        GreedyStaysAhead(rows, max, other[..m]);
      } else {
        FlattenEnd(other, rows);
        var rest := last[..|last| - 1];
        assert last == rest + [row];
        JoinSnoc(rest, row);
        var shorter := other[..m] + [rest];
        FlattenSnoc(other[..m], rest);
        GreedyStaysAhead(rows[..n], max, shorter);
        PlaceStaysAhead(Greedy(rows[..n], max), shorter, row, max);
      }
    }
  }

  lemma PlaceStaysAhead(g: seq<seq<Row>>, h: seq<seq<Row>>, row: Row, max: nat)
    requires h != [] && Ahead(g, h) && |row.ids| <= max
    requires Size(h[|h| - 1]) + |row.ids| <= max
    ensures Ahead(Place(g, row, max), h[..|h| - 1] + [h[|h| - 1] + [row]])
  {
    JoinOne(row);
    JoinSnoc(h[|h| - 1], row);
    if g != [] {
      JoinSnoc(g[|g| - 1], row);
    }
  }

  /** No cutting of the rows into consecutive unsplit groups of at most `max` tokens has fewer groups. */
  lemma FewestBlocks(rows: seq<Row>, max: nat)
    requires Normal(rows, max)
    ensures Cutting(Greedy(rows, max), rows, max)
    ensures forall other :: Cutting(other, rows, max) ==> |Greedy(rows, max)| <= |other|
  {
    GreedyCuts(rows, max);
    forall other | Cutting(other, rows, max) ensures |Greedy(rows, max)| <= |other| {
      GreedyStaysAhead(rows, max, other);
    }
  }

  // ---- The bound on the number of blocks ----

  ghost predicate Crowded(groups: seq<seq<Row>>, max: nat) {
    forall i :: 0 <= i < |groups| - 1 ==> Size(groups[i]) + Size(groups[i + 1]) > max
  }

  lemma PlaceCrowds(groups: seq<seq<Row>>, row: Row, max: nat)
    requires Crowded(groups, max)
    ensures Crowded(Place(groups, row, max), max)
  {
    JoinOne(row);
    if groups != [] {
      JoinSnoc(groups[|groups| - 1], row);
    }
  }

  /** Any two neighbouring blocks together exceed the limit. */
  lemma {:induction false} NeighboursOverflow(rows: seq<Row>, max: nat)
    ensures Crowded(Greedy(rows, max), max)
  {
    if rows != [] {
      var n := |rows| - 1;
      NeighboursOverflow(rows[..n], max);
      PlaceCrowds(Greedy(rows[..n], max), rows[n], max);
    }
  }

  /** The sum of the first `m` overflows of neighbours. */
  function Overflow(m: nat, max: nat): nat {
    if m == 0 then 0 else Overflow(m - 1, max) + max + 1
  }

  lemma {:induction false} OverflowIsProduct(m: nat, max: nat)
    ensures Overflow(m, max) == m * (max + 1)
  {
    if m > 0 {
      OverflowIsProduct(m - 1, max);
    }
  }

  lemma {:induction false} CrowdedIsFull(groups: seq<seq<Row>>, max: nat)
    requires groups != [] && Crowded(groups, max)
    ensures Overflow(|groups| - 1, max) + Size(groups[0]) + Size(groups[|groups| - 1]) <= 2 * Size(Flatten(groups))
  {
    var m := |groups| - 1;
    var before := groups[..m];
    JoinConcat(Flatten(before), groups[m]);
    if m > 0 {
      CrowdedIsFull(before, max);
      assert before[m - 1] == groups[m - 1] && Size(groups[m - 1]) + Size(groups[m - 1 + 1]) > max;
    }
  }

  /** Hence fewer than 2 * tokens / max + 1 blocks. */
  lemma BlockCountBound(rows: seq<Row>, max: nat)
    requires Normal(rows, max) && max >= 1
    ensures (|Greedy(rows, max)| - 1) * max < 2 * Size(rows)
  {
    var groups := Greedy(rows, max);
    GreedyCuts(rows, max);
    NeighboursOverflow(rows, max);
    if groups != [] {
      var m := |groups| - 1;
      CrowdedIsFull(groups, max);
      OverflowIsProduct(m, max);
      assert m * (max + 1) == m * max + m;
    }
  }

  // ---- Separators ----

  /** A normalized row ends with the separator exactly when it had room for it, or had it as the
      last token kept. */
  lemma SeparatorKeptExactlyWhen(raw: Row, max: nat, e: int, tag: int)
    requires raw.ids != [] && max >= 1
    ensures var ids := Normalize(raw, max, Some(e), tag).ids;
            ids[|ids| - 1] == e <==> |raw.ids| < max || raw.ids[max - 1] == e
  {
  }

  /** A row that fills a block loses its separator. */
  lemma FullRowLosesSeparator(max: nat, t: int, e: int, tag: int)
    requires max >= 1 && t != e
    ensures var raw := Row(seq(max, _ => t), seq(max, _ => t));
            Normalize(raw, max, Some(e), tag) == raw && e !in raw.ids
  {
    var raw := Row(seq(max, _ => t), seq(max, _ => t));
    assert Align(raw.ids, raw.labels) == raw.labels;
    assert (raw.ids + [e])[..max] == raw.ids && (raw.labels + [tag])[..max] == raw.labels;
  }

  ghost predicate EndsWith(row: Row, e: int) {
    row.ids != [] && row.ids[|row.ids| - 1] == e
  }

  /** Rows that end with the separator, unless they fill a block. */
  ghost predicate SeparatedOrFull(rows: seq<Row>, max: nat, e: int) {
    forall row :: row in rows ==> EndsWith(row, e) || |row.ids| == max
  }

  lemma {:induction false} NormalRowsSeparated(rows: seq<Row>, max: nat, e: int, tag: int)
    requires max >= 1
    ensures SeparatedOrFull(NormalizeAll(rows, max, Some(e), tag), max, e)
  {
    if rows != [] {
      var n := |rows| - 1;
      NormalRowsSeparated(rows[..n], max, e, tag);
      if rows[n].ids != [] {
        SeparatorKeptExactlyWhen(rows[n], max, e, tag);
      }
    }
  }

  lemma {:induction false} RowAndNextFit(group: seq<Row>, j: nat)
    requires j < |group|
    ensures |group[j].ids| + (if j + 1 < |group| then |group[j + 1].ids| else 0) <= Size(group)
  {
    var n := |group| - 1;
    if j + 1 < n {
      RowAndNextFit(group[..n], j);
    } else if j + 1 == n {
      assert group[..n][..n - 1] == group[..n - 1];
    }
  }

  /** The lost separators never matter: within a block every row but the last ends with one. */
  lemma RowsInBlockAreSeparated(rows: seq<Row>, max: nat, e: int, tag: int, i: nat, j: nat)
    requires max >= 1
    requires var groups := Greedy(NormalizeAll(rows, max, Some(e), tag), max);
             i < |groups| && j + 1 < |groups[i]|
    ensures EndsWith(Greedy(NormalizeAll(rows, max, Some(e), tag), max)[i][j], e)
  {
    var normal := NormalizeAll(rows, max, Some(e), tag);
    var group := Greedy(normal, max)[i];
    var row, next := group[j], group[j + 1];
    GreedyCuts(normal, max);
    RowAndNextFit(group, j);
    assert row in group && next in group;
    GroupsHoldRows(normal, max, i);
    assert |next.ids| >= 1 by {
      var k :| 0 <= k < |normal| && normal[k] == next;
    }
    NormalRowsSeparated(rows, max, e, tag);
  }
}
