/**
 Greedy packing of tokenized rows into blocks, with labels kept aligned.
 A row is never split: the packer cuts the list of normalized rows into consecutive groups
 and concatenates each group into one block.
 */
module Packing {
  import opened Options

  /** Token ids with one label each. The label -100 is not trained on. */
  datatype Row = Row(ids: seq<int>, labels: seq<int>)

  datatype Packed = Packed(inputIds: seq<seq<int>>, attentionMask: seq<seq<int>>, labels: seq<seq<int>>)

  const IGNORE := -100

  // ---- Normalization of one row ----

  /** Labels cut or extended to the length of the ids; a missing tail mirrors the ids. */
  function Align(ids: seq<int>, labels: seq<int>): (r: seq<int>)
    ensures |r| == |ids|
  {
    if |labels| < |ids| then labels + ids[|labels|..] else labels[..|ids|]
  }

  function Separate(row: Row, eos: Option<int>, eosLabel: int): Row
    requires row.ids != []
  {
    if eos.Some? && row.ids[|row.ids| - 1] != eos.value
    then Row(row.ids + [eos.value], row.labels + [eosLabel]) else row
  }

  function Truncate(row: Row, max: nat): Row
    requires |row.ids| == |row.labels|
  {
    if |row.ids| > max then Row(row.ids[..max], row.labels[..max]) else row
  }

  function Normalize(raw: Row, max: nat, eos: Option<int>, eosLabel: int): (r: Row)
    requires raw.ids != [] && max >= 1
    ensures 1 <= |r.ids| == |r.labels| <= max
  {
    Truncate(Separate(Row(raw.ids, Align(raw.ids, raw.labels)), eos, eosLabel), max)
  }

  function NormalizeAll(rows: seq<Row>, max: nat, eos: Option<int>, eosLabel: int): (r: seq<Row>)
    requires max >= 1
    ensures Normal(r, max)
  {
    if rows == [] then []
    else
      var n := |rows| - 1;
      NormalizeAll(rows[..n], max, eos, eosLabel)
      + (if rows[n].ids == [] then [] else [Normalize(rows[n], max, eos, eosLabel)])
  }

  ghost predicate Normal(rows: seq<Row>, max: nat) {
    forall i :: 0 <= i < |rows| ==> 1 <= |rows[i].ids| == |rows[i].labels| <= max
  }

  // ---- Groups of rows ----

  /** The tokens of a group. */
  function Size(group: seq<Row>): nat {
    if group == [] then 0 else Size(group[..|group| - 1]) + |group[|group| - 1].ids|
  }

  function JoinIds(group: seq<Row>): seq<int> {
    if group == [] then [] else JoinIds(group[..|group| - 1]) + group[|group| - 1].ids
  }

  function JoinLabels(group: seq<Row>): seq<int> {
    if group == [] then [] else JoinLabels(group[..|group| - 1]) + group[|group| - 1].labels
  }

  function IdBlocks(groups: seq<seq<Row>>): (r: seq<seq<int>>)
    ensures |r| == |groups| && forall i :: 0 <= i < |r| ==> r[i] == JoinIds(groups[i])
  {
    seq(|groups|, i requires 0 <= i < |groups| => JoinIds(groups[i]))
  }

  function LabelBlocks(groups: seq<seq<Row>>): (r: seq<seq<int>>)
    ensures |r| == |groups| && forall i :: 0 <= i < |r| ==> r[i] == JoinLabels(groups[i])
  {
    seq(|groups|, i requires 0 <= i < |groups| => JoinLabels(groups[i]))
  }

  function Flatten<T>(s: seq<seq<T>>): seq<T> {
    if s == [] then [] else Flatten(s[..|s| - 1]) + s[|s| - 1]
  }

  /** One way of cutting the rows into consecutive unsplit groups that fit a block. */
  ghost predicate Cutting(groups: seq<seq<Row>>, rows: seq<Row>, max: nat) {
    Flatten(groups) == rows && forall i :: 0 <= i < |groups| ==> Size(groups[i]) <= max
  }

  /** The greedy cutting: a row joins the last group when it fits there, else it starts a group. */
  function Greedy(rows: seq<Row>, max: nat): seq<seq<Row>> {
    if rows == [] then []
    else
      var n := |rows| - 1;
      Place(Greedy(rows[..n], max), rows[n], max)
  }

  function Place(groups: seq<seq<Row>>, row: Row, max: nat): seq<seq<Row>> {
    var m := |groups| - 1;
    if groups != [] && Size(groups[m]) + |row.ids| <= max then groups[..m] + [groups[m] + [row]]
    else groups + [[row]]
  }

  // ---- The packer ----

  function Ones(n: nat): (r: seq<int>)
    ensures |r| == n && forall i :: 0 <= i < n ==> r[i] == 1
  {
    seq(n, _ => 1)
  }

  /** One mask for each block, as long as the block, and nothing masked out. */
  ghost predicate FullAttention(ids: seq<seq<int>>, mask: seq<seq<int>>) {
    && |mask| == |ids|
    && (forall i :: 0 <= i < |ids| ==> |mask[i]| == |ids[i]|)
    && (forall i, j :: 0 <= i < |ids| && 0 <= j < |mask[i]| ==> mask[i][j] == 1)
  }

  lemma AttentionSnoc(ids: seq<seq<int>>, mask: seq<seq<int>>, row: seq<int>)
    requires FullAttention(ids, mask)
    ensures FullAttention(ids + [row], mask + [Ones(|row|)])
  {
  }

  /** The packer's open buffer and flushed blocks, against the greedy groups so far. */
  ghost predicate Buffered(groups: seq<seq<Row>>, ids: seq<seq<int>>, labels: seq<seq<int>>,
                           bufIds: seq<int>, bufLabels: seq<int>, max: nat) {
    if bufIds == [] then
      && bufLabels == []
      && ids == IdBlocks(groups) && labels == LabelBlocks(groups)
      && (groups != [] ==> Size(groups[|groups| - 1]) == max)
    else
      && groups != []
      && ids == IdBlocks(groups[..|groups| - 1]) && labels == LabelBlocks(groups[..|groups| - 1])
      && bufIds == JoinIds(groups[|groups| - 1]) && bufLabels == JoinLabels(groups[|groups| - 1])
  }

  lemma {:induction false} JoinLength(group: seq<Row>)
    ensures |JoinIds(group)| == Size(group)
    ensures (forall i :: 0 <= i < |group| ==> |group[i].ids| == |group[i].labels|) ==>
              |JoinLabels(group)| == Size(group)
  {
    if group != [] {
      JoinLength(group[..|group| - 1]);
    }
  }

  lemma JoinOne(row: Row)
    ensures JoinIds([row]) == row.ids && JoinLabels([row]) == row.labels && Size([row]) == |row.ids|
  {
    assert [row][..0] == [];
  }

  lemma JoinSnoc(group: seq<Row>, row: Row)
    ensures JoinIds(group + [row]) == JoinIds(group) + row.ids
    ensures JoinLabels(group + [row]) == JoinLabels(group) + row.labels
    ensures Size(group + [row]) == Size(group) + |row.ids|
  {
    assert (group + [row])[..|group|] == group;
  }

  lemma BlocksSnoc(groups: seq<seq<Row>>, group: seq<Row>)
    ensures IdBlocks(groups + [group]) == IdBlocks(groups) + [JoinIds(group)]
    ensures LabelBlocks(groups + [group]) == LabelBlocks(groups) + [JoinLabels(group)]
  {
  }

  method PackLabeledTokenIdLists(sequences: seq<Row>, maxLength: int, eos: Option<int>, eosLabel: int)
    returns (r: Result<Packed>)
    ensures r.Failure? <==> maxLength < 1
    ensures r.Success? ==>
              var groups := Greedy(NormalizeAll(sequences, maxLength, eos, eosLabel), maxLength);
              && r.value.inputIds == IdBlocks(groups)
              && r.value.labels == LabelBlocks(groups)
              && FullAttention(r.value.inputIds, r.value.attentionMask)
  {
    if maxLength < 1 {
      return Failure("max_length must be >= 1");
    }
    var packedIds, packedLabels: seq<seq<int>> := [], [];
    var bufIds, bufLabels: seq<int> := [], [];
    ghost var groups: seq<seq<Row>> := [];
    for k := 0 to |sequences|
      invariant groups == Greedy(NormalizeAll(sequences[..k], maxLength, eos, eosLabel), maxLength)
      invariant Buffered(groups, packedIds, packedLabels, bufIds, bufLabels, maxLength)
    {
      GreedyStep(sequences, k, maxLength, eos, eosLabel);
      if sequences[k].ids == [] {
        continue;
      }
      var ids, labels := NormalizeRow(sequences[k], maxLength, eos, eosLabel);
      packedIds, packedLabels, bufIds, bufLabels :=
        Add(groups, packedIds, packedLabels, bufIds, bufLabels, ids, labels, maxLength);
      groups := Place(groups, Row(ids, labels), maxLength);
    }
    assert sequences[..|sequences|] == sequences;
    FinalFlush(groups, packedIds, packedLabels, bufIds, bufLabels, maxLength);
    if bufIds != [] {
      packedIds, packedLabels := packedIds + [bufIds], packedLabels + [bufLabels];
    }
    var attention := seq(|packedIds|, i requires 0 <= i < |packedIds| => Ones(|packedIds[i]|));
    r := Success(Packed(packedIds, attention, packedLabels));
  }

  lemma NormalizeSnoc(before: seq<Row>, row: Row, max: nat, eos: Option<int>, eosLabel: int)
    requires max >= 1
    ensures var normal := NormalizeAll(before, max, eos, eosLabel);
            NormalizeAll(before + [row], max, eos, eosLabel) ==
            if row.ids == [] then normal else normal + [Normalize(row, max, eos, eosLabel)]
  {
    assert (before + [row])[..|before|] == before;
    assert NormalizeAll(before, max, eos, eosLabel) + [] == NormalizeAll(before, max, eos, eosLabel);
  }

  lemma GreedyStep(sequences: seq<Row>, k: nat, max: nat, eos: Option<int>, eosLabel: int)
    requires k < |sequences| && max >= 1
    ensures var before, after := NormalizeAll(sequences[..k], max, eos, eosLabel),
                                 NormalizeAll(sequences[..k + 1], max, eos, eosLabel);
            if sequences[k].ids == [] then after == before
            else Greedy(after, max) == Place(Greedy(before, max), Normalize(sequences[k], max, eos, eosLabel), max)
  {
    assert sequences[..k + 1][..k] == sequences[..k];
    var before := NormalizeAll(sequences[..k], max, eos, eosLabel);
    if sequences[k].ids == [] {
      assert before + [] == before;
    } else {
      var row := Normalize(sequences[k], max, eos, eosLabel);
      assert (before + [row])[..|before|] == before;
    }
  }

  lemma FinalFlush(groups: seq<seq<Row>>, ids: seq<seq<int>>, labels: seq<seq<int>>,
                   bufIds: seq<int>, bufLabels: seq<int>, max: nat)
    requires Buffered(groups, ids, labels, bufIds, bufLabels, max)
    ensures if bufIds == [] then ids == IdBlocks(groups) && labels == LabelBlocks(groups)
            else ids + [bufIds] == IdBlocks(groups) && labels + [bufLabels] == LabelBlocks(groups)
  {
    if bufIds != [] {
      BlocksSnoc(groups[..|groups| - 1], groups[|groups| - 1]);
      assert groups == groups[..|groups| - 1] + [groups[|groups| - 1]];
    }
  }

  /** The head of the packing loop: align the labels, append the separator, truncate. */
  method NormalizeRow(raw: Row, maxLength: nat, eos: Option<int>, eosLabel: int)
    returns (ids: seq<int>, labels: seq<int>)
    requires raw.ids != [] && maxLength >= 1
    ensures Row(ids, labels) == Normalize(raw, maxLength, eos, eosLabel)
  {
    ids, labels := raw.ids, raw.labels;
    if |labels| != |ids| {
      if |labels| < |ids| {
        labels := labels + ids[|labels|..];
      } else {
        labels := labels[..|ids|];
      }
    }
    assert labels == Align(raw.ids, raw.labels);
    if eos.Some? && ids[|ids| - 1] != eos.value {
      ids, labels := ids + [eos.value], labels + [eosLabel];
    }
    if |ids| > maxLength {
      ids, labels := ids[..maxLength], labels[..maxLength];
    }
  }

  /** The tail of the packing loop: a full row becomes a block of its own, any other row goes
      to the buffer, which is flushed first when the row does not fit. */
  method Add(ghost groups: seq<seq<Row>>, packedIds: seq<seq<int>>, packedLabels: seq<seq<int>>,
             bufIds: seq<int>, bufLabels: seq<int>, ids: seq<int>, labels: seq<int>, maxLength: nat)
    returns (packedIds': seq<seq<int>>, packedLabels': seq<seq<int>>, bufIds': seq<int>, bufLabels': seq<int>)
    requires 1 <= |ids| == |labels| <= maxLength
    requires Buffered(groups, packedIds, packedLabels, bufIds, bufLabels, maxLength)
    ensures Buffered(Place(groups, Row(ids, labels), maxLength),
                     packedIds', packedLabels', bufIds', bufLabels', maxLength)
  {
    ghost var last := if groups == [] then [] else groups[|groups| - 1];
    JoinLength(last);
    JoinOne(Row(ids, labels));
    JoinSnoc(last, Row(ids, labels));
    BlocksSnoc(groups, [Row(ids, labels)]);
    FinalFlush(groups, packedIds, packedLabels, bufIds, bufLabels, maxLength);
    packedIds', packedLabels', bufIds', bufLabels' := packedIds, packedLabels, bufIds, bufLabels;
    if |ids| == maxLength {
      if bufIds' != [] {
        packedIds', packedLabels' := packedIds' + [bufIds'], packedLabels' + [bufLabels'];
        bufIds', bufLabels' := [], [];
      }
      packedIds', packedLabels' := packedIds' + [ids], packedLabels' + [labels];
    } else {
      if bufIds' != [] && |bufIds'| + |ids| > maxLength {
        packedIds', packedLabels' := packedIds' + [bufIds'], packedLabels' + [bufLabels'];
        bufIds', bufLabels' := [], [];
      }
      bufIds', bufLabels' := bufIds' + ids, bufLabels' + labels;
    }
  }

  /** Full-token packing: every label mirrors its id. */
  method PackTokenIdLists(sequences: seq<seq<int>>, maxLength: int, eos: Option<int>) returns (r: Result<Packed>)
    ensures r.Failure? <==> maxLength < 1
    ensures r.Success? ==>
              var rows := NormalizeAll(Mirrored(sequences), maxLength, eos, EosLabel(eos));
              && r.value.labels == r.value.inputIds == IdBlocks(Greedy(rows, maxLength))
              && FullAttention(r.value.inputIds, r.value.attentionMask)
  {
    var labeled: seq<Row> := [];
    for k := 0 to |sequences|
      invariant labeled == Mirrored(sequences[..k])
    {
      assert sequences[..k + 1][..k] == sequences[..k];
      if sequences[k] == [] {
        continue;
      }
      labeled := labeled + [Row(sequences[k], sequences[k])];
    }
    assert sequences[..|sequences|] == sequences;
    r := PackLabeledTokenIdLists(labeled, maxLength, eos, EosLabel(eos));
    if r.Success? {
      MirroredRows(sequences);
      MirrorNormal(labeled, maxLength, eos);
      MirrorGroups(NormalizeAll(labeled, maxLength, eos, EosLabel(eos)), maxLength);
    }
  }

  function EosLabel(eos: Option<int>): int {
    if eos.Some? then eos.value else IGNORE
  }

  function Mirrored(sequences: seq<seq<int>>): seq<Row> {
    if sequences == [] then []
    else
      var s := sequences[|sequences| - 1];
      Mirrored(sequences[..|sequences| - 1]) + (if s == [] then [] else [Row(s, s)])
  }

  ghost predicate Mirror(rows: seq<Row>) {
    forall row :: row in rows ==> row.labels == row.ids
  }

  lemma {:induction false} MirroredRows(sequences: seq<seq<int>>)
    ensures Mirror(Mirrored(sequences))
  {
    if sequences != [] {
      MirroredRows(sequences[..|sequences| - 1]);
    }
  }

  lemma {:induction false} MirrorNormal(rows: seq<Row>, max: nat, eos: Option<int>)
    requires Mirror(rows) && max >= 1
    ensures Mirror(NormalizeAll(rows, max, eos, EosLabel(eos)))
  {
    if rows != [] {
      MirrorNormal(rows[..|rows| - 1], max, eos);
    }
  }

  lemma {:induction false} MirrorJoin(group: seq<Row>)
    requires Mirror(group)
    ensures JoinLabels(group) == JoinIds(group)
  {
    if group != [] {
      MirrorJoin(group[..|group| - 1]);
    }
  }

  lemma MirrorGroups(rows: seq<Row>, max: nat)
    requires Mirror(rows)
    ensures LabelBlocks(Greedy(rows, max)) == IdBlocks(Greedy(rows, max))
  {
    var groups := Greedy(rows, max);
    forall i | 0 <= i < |groups| ensures JoinLabels(groups[i]) == JoinIds(groups[i]) {
      GroupsHoldRows(rows, max, i);
      MirrorJoin(groups[i]);
    }
  }

  lemma PlaceHolds(groups: seq<seq<Row>>, row: Row, max: nat, i: nat, x: Row)
    requires i < |Place(groups, row, max)| && x in Place(groups, row, max)[i]
    ensures x == row || (i < |groups| && x in groups[i])
  {
  }

  /** Every row of a greedy group is one of the rows packed. */
  lemma {:induction false} GroupsHoldRows(rows: seq<Row>, max: nat, i: nat)
    requires i < |Greedy(rows, max)|
    ensures forall row :: row in Greedy(rows, max)[i] ==> row in rows
  {
    var n := |rows| - 1;
    var rest, last := rows[..n], rows[n];
    assert rows == rest + [last];
    var before := Greedy(rest, max);
    if i < |before| {
      GroupsHoldRows(rest, max, i);
    }
    forall x | x in Greedy(rows, max)[i] ensures x in rows {
      PlaceHolds(before, last, max, i, x);
    }
  }
}
