/**
 Completion-only labels, from samples to packed blocks. Prompt tokens carry the label -100,
 and the masks have to survive truncation, separators and packing.
 */
module Labels {
  import opened Options
  import opened Packing
  import opened PackingTheorems
  import opened SftFormat

  // ---- Masking one row ----

  /** The ids as labels, with the first `n` masked. */
  function MaskFirst(ids: seq<int>, n: nat): (r: seq<int>)
    ensures |r| == |ids|
    ensures forall i :: 0 <= i < |ids| ==> r[i] == if i < n then -100 else ids[i]
  {
    seq(|ids|, i requires 0 <= i < |ids| => if i < n then IGNORE else ids[i])
  }

  /** How many tokens are masked: the prompt when it is a prefix, but never the last token. */
  function MaskedCount(ids: seq<int>, promptIds: seq<int>): (n: nat)
    ensures n <= |ids| && (ids != [] ==> n < |ids|)
  {
    if !(promptIds <= ids) then 0
    else if |promptIds| < |ids| then |promptIds|
    else if ids == [] then 0 else |ids| - 1
  }

  method MaskLabelsCompletionOnly(inputIds: seq<int>, promptIds: seq<int>) returns (labels: seq<int>)
    ensures labels == MaskFirst(inputIds, MaskedCount(inputIds, promptIds))
  {
    labels := inputIds;
    var n, plen := 0, |promptIds|;
    if plen > 0 && plen <= |inputIds| && inputIds[..plen] == promptIds {
      n := plen;
    }
    for i := 0 to n
      invariant |labels| == |inputIds|
      invariant forall j :: 0 <= j < |labels| ==> labels[j] == if j < i then IGNORE else inputIds[j]
    {
      labels := labels[i := IGNORE];
    }
    if n >= |labels| && labels != [] {
      labels := labels[|labels| - 1 := inputIds[|inputIds| - 1]];
    }
  }

  // ---- The corpus ----

  /** A tokenizer call at the given limit. */
  type Encode = string -> seq<int>

  ghost predicate Encodes(tok: Encode, maxLength: int) {
    forall s :: NonNegative(tok(s)) && |tok(s)| <= if maxLength < 0 then 0 else maxLength
  }

  ghost predicate NonNegative(ids: seq<int>) {
    forall i :: 0 <= i < |ids| ==> ids[i] >= 0
  }

  function CutPrompt(promptIds: seq<int>, ids: seq<int>): seq<int> {
    if |promptIds| < |ids| then promptIds else promptIds[..if ids == [] then 0 else |ids| - 1]
  }

  /** One row of the corpus from its prompt and full text. */
  function LabeledRow(prompt: string, full: string, tok: Encode): Row {
    Row(tok(full), MaskFirst(tok(full), MaskedCount(tok(full), CutPrompt(tok(prompt), tok(full)))))
  }

  ghost predicate FromSamples(rows: seq<Row>, samples: seq<Mapping>, mode: Mode, env: Env, tok: Encode) {
    |rows| == |samples| && Matched(rows, samples, Sampling(mode, env, tok))
  }

  /** Each of the first elements stands in the relation to its partner. */
  ghost predicate Matched<A, B>(a: seq<A>, b: seq<B>, p: (A, B) -> bool) {
    |a| <= |b| && forall i :: 0 <= i < |a| ==> p(a[i], b[i])
  }

  lemma MatchedSnoc<A, B>(a: seq<A>, x: A, b: seq<B>, p: (A, B) -> bool)
    requires |a| < |b| && Matched(a, b, p) && p(x, b[|a|])
    ensures Matched(a + [x], b, p)
  {
  }

  ghost function Sampling(mode: Mode, env: Env, tok: Encode): (Row, Mapping) -> bool {
    (row, sample) => FromSample(row, sample, mode, env, tok)
  }

  /** The row's ids are those of the plain renderer's text, masked by the prompt part of it. */
  ghost predicate FromSample(row: Row, sample: Mapping, mode: Mode, env: Env, tok: Encode) {
    exists prompt :: IsPrompt(prompt, sample, mode, env) && row == LabeledRow(prompt, PlainText(sample, mode, env), tok)
  }

  function Zip(ids: seq<seq<int>>, labels: seq<seq<int>>): (rows: seq<Row>)
    requires |ids| == |labels|
    ensures |rows| == |ids| && forall i :: 0 <= i < |rows| ==> rows[i] == Row(ids[i], labels[i])
  {
    seq(|ids|, i requires 0 <= i < |ids| => Row(ids[i], labels[i]))
  }

  method TokenizeCompletionOnlyCorpus(samples: seq<Mapping>, mode: Mode, env: Env, tok: Encode)
    returns (inputIds: seq<seq<int>>, attentionMask: seq<seq<int>>, labels: seq<seq<int>>)
    ensures |inputIds| == |labels| && FullAttention(inputIds, attentionMask)
    ensures FromSamples(Zip(inputIds, labels), samples, mode, env, tok)
  {
    inputIds, attentionMask, labels := [], [], [];
    ghost var rows: seq<Row> := [];
    for k := 0 to |samples|
      invariant |inputIds| == |labels|
      invariant rows == Zip(inputIds, labels) && |rows| == k && Matched(rows, samples, Sampling(mode, env, tok))
      invariant FullAttention(inputIds, attentionMask)
    {
      var ids, rowLabels := TokenizeSample(samples[k], mode, env, tok);
      MatchedSnoc(rows, Row(ids, rowLabels), samples, Sampling(mode, env, tok));
      AttentionSnoc(inputIds, attentionMask, ids);
      rows := rows + [Row(ids, rowLabels)];
      inputIds, attentionMask, labels := inputIds + [ids], attentionMask + [Ones(|ids|)], labels + [rowLabels];
    }
  }

  /** One pass of the corpus loop. */
  method TokenizeSample(sample: Mapping, mode: Mode, env: Env, tok: Encode) returns (ids: seq<int>, labels: seq<int>)
    ensures FromSample(Row(ids, labels), sample, mode, env, tok)
  {
    var prompt, full := FormatSftPromptAndFull(sample, mode, env);
    ids := tok(full);
    var pids := tok(prompt);
    if |pids| >= |ids| {
      pids := pids[..if ids == [] then 0 else |ids| - 1];
    }
    labels := MaskLabelsCompletionOnly(ids, pids);
    assert Row(ids, labels) == LabeledRow(prompt, full, tok);
  }

  method TokenizeAndPackCompletionOnly(samples: seq<Mapping>, maxLength: int, mode: Mode, env: Env, tok: Encode,
                                       eos: Option<int>)
    returns (r: Result<Packed>, ghost rows: seq<Row>)
    ensures FromSamples(rows, samples, mode, env, tok)
    ensures r.Failure? <==> maxLength < 1
    ensures r.Success? ==>
              var groups := Greedy(NormalizeAll(rows, maxLength, eos, IGNORE), maxLength);
              && r.value.inputIds == IdBlocks(groups) && r.value.labels == LabelBlocks(groups)
              && FullAttention(r.value.inputIds, r.value.attentionMask)
  {
    var inputIds, attentionMask, labels := TokenizeCompletionOnlyCorpus(samples, mode, env, tok);
    rows := Zip(inputIds, labels);
    r := PackLabeledTokenIdLists(Zip(inputIds, labels), maxLength, eos, IGNORE);
  }

  // ---- What training sees ----

  function Trainable(labels: seq<int>): nat {
    if labels == [] then 0
    else Trainable(labels[..|labels| - 1]) + if labels[|labels| - 1] == IGNORE then 0 else 1
  }

  /** Each label is ignored or is its own token. */
  ghost predicate Honest(ids: seq<int>, labels: seq<int>) {
    |ids| == |labels| && forall i :: 0 <= i < |ids| ==> labels[i] == -100 || labels[i] == ids[i]
  }

  lemma {:induction false} TrainableConcat(a: seq<int>, b: seq<int>)
    ensures Trainable(a + b) == Trainable(a) + Trainable(b)
    decreases |b|
  {
    if b == [] {
      assert a + b == a;
    } else {
      assert (a + b)[..|a + b| - 1] == a + b[..|b| - 1];
      TrainableConcat(a, b[..|b| - 1]);
    }
  }

  lemma {:induction false} MaskedTrainable(ids: seq<int>, n: nat)
    requires NonNegative(ids)
    ensures Trainable(MaskFirst(ids, n)) == if n < |ids| then |ids| - n else 0
  {
    if ids != [] {
      var m := |ids| - 1;
      MaskedTrainable(ids[..m], n);
      assert MaskFirst(ids, n)[..m] == MaskFirst(ids[..m], n);
    }
  }

  /** A row of the corpus: its labels are honest, a non-empty row trains on its last token, and
      it masks exactly the tokens of the prompt, cut to leave one token, when these begin the
      row, and nothing otherwise. */
  lemma CorpusRow(row: Row, prompt: string, full: string, tok: Encode, maxLength: int)
    requires Encodes(tok, maxLength) && row == LabeledRow(prompt, full, tok)
    ensures row.ids == tok(full) && Honest(row.ids, row.labels)
    ensures row.ids != [] ==>
              row.labels[|row.labels| - 1] == row.ids[|row.ids| - 1] && Trainable(row.labels) >= 1
    ensures var p, n := tok(prompt), |row.ids|;
            var cut := if |p| < n then p else p[..if n == 0 then 0 else n - 1];
            forall i :: 0 <= i < n ==> (row.labels[i] == -100 <==> cut <= row.ids && i < |cut|)
  {
    MaskedTrainable(row.ids, MaskedCount(row.ids, CutPrompt(tok(prompt), tok(full))));
  }

  /** Normalizing a row that is within the limit keeps all of it, and appends the separator,
      untrained, exactly when there is one, the row does not end with it, and it fits. */
  lemma NormalKeepsLabels(row: Row, max: nat, eos: Option<int>)
    requires max >= 1 && 1 <= |row.ids| == |row.labels| <= max
    requires Honest(row.ids, row.labels)
    ensures var r := Normalize(row, max, eos, IGNORE);
            var adds := eos.Some? && row.ids[|row.ids| - 1] != eos.value && |row.ids| < max;
            && r.ids == row.ids + (if adds then [eos.value] else [])
            && r.labels == row.labels + (if adds then [-100] else [])
            && Honest(r.ids, r.labels)
            && Trainable(r.labels) == Trainable(row.labels)
  {
    assert Align(row.ids, row.labels) == row.labels;
    TrainableConcat(row.labels, [IGNORE]);
    assert [IGNORE][..0] == [];
    assert row.ids + [] == row.ids && row.labels + [] == row.labels;
    if eos.Some? && |row.ids| == max {
      assert (row.ids + [eos.value])[..max] == row.ids && (row.labels + [IGNORE])[..max] == row.labels;
    }
  }

  lemma {:induction false} HonestConcat(a: seq<int>, la: seq<int>, b: seq<int>, lb: seq<int>)
    requires Honest(a, la) && Honest(b, lb)
    ensures Honest(a + b, la + lb)
  {
  }

  /** Within the limit, honest, and trained on when not empty. */
  ghost predicate GoodRow(row: Row, max: nat) {
    |row.ids| <= max && Honest(row.ids, row.labels) && (row.ids != [] ==> Trainable(row.labels) >= 1)
  }

  ghost predicate GoodRows(rows: seq<Row>, max: nat) {
    forall row :: row in rows ==> GoodRow(row, max)
  }

  ghost predicate Trained(row: Row) {
    Honest(row.ids, row.labels) && Trainable(row.labels) >= 1
  }

  ghost predicate AllTrained(rows: seq<Row>) {
    forall row :: row in rows ==> Trained(row)
  }

  /** Normalizing keeps the number of trainable labels and leaves every row trained. */
  ghost predicate KeepsLabels(rows: seq<Row>, max: nat, eos: Option<int>)
    requires max >= 1
  {
    var normal := NormalizeAll(rows, max, eos, IGNORE);
    AllTrained(normal) && Trainable(JoinLabels(normal)) == Trainable(JoinLabels(rows))
  }

  lemma {:induction false} NormalRowsKeepLabels(rows: seq<Row>, max: nat, eos: Option<int>)
    requires max >= 1 && GoodRows(rows, max)
    ensures KeepsLabels(rows, max, eos)
  {
    if rows != [] {
      var before, row := rows[..|rows| - 1], rows[|rows| - 1];
      assert rows == before + [row];
      GoodSplit(before, row, max);
      NormalRowsKeepLabels(before, max, eos);
      KeepsLabelsSnoc(before, row, max, eos);
    }
  }

  lemma GoodSplit(before: seq<Row>, row: Row, max: nat)
    requires GoodRows(before + [row], max)
    ensures GoodRows(before, max) && GoodRow(row, max)
  {
    assert row in before + [row];
    forall x | x in before ensures GoodRow(x, max) {
      assert x in before + [row];
    }
  }

  lemma KeepsLabelsSnoc(before: seq<Row>, row: Row, max: nat, eos: Option<int>)
    requires max >= 1 && GoodRow(row, max) && KeepsLabels(before, max, eos)
    ensures KeepsLabels(before + [row], max, eos)
  {
    var normal := NormalizeAll(before, max, eos, IGNORE);
    NormalizeSnoc(before, row, max, eos, IGNORE);
    JoinSnoc(before, row);
    TrainableConcat(JoinLabels(before), row.labels);
    if row.ids != [] {
      NormalRowAdds(normal, row, max, eos);
    }
  }

  /** What one more row adds to the normalized rows. */
  lemma NormalRowAdds(normal: seq<Row>, row: Row, max: nat, eos: Option<int>)
    requires max >= 1 && GoodRow(row, max) && row.ids != [] && AllTrained(normal)
    ensures var r := Normalize(row, max, eos, IGNORE);
            && AllTrained(normal + [r])
            && Trainable(JoinLabels(normal + [r])) == Trainable(JoinLabels(normal)) + Trainable(row.labels)
  {
    var r := Normalize(row, max, eos, IGNORE);
    NormalKeepsLabels(row, max, eos);
    JoinSnoc(normal, r);
    TrainableConcat(JoinLabels(normal), r.labels);
  }

  lemma {:induction false} HonestGroup(group: seq<Row>)
    requires forall row :: row in group ==> Honest(row.ids, row.labels)
    ensures Honest(JoinIds(group), JoinLabels(group))
  {
    if group != [] {
      var n := |group| - 1;
      HonestGroup(group[..n]);
      HonestConcat(JoinIds(group[..n]), JoinLabels(group[..n]), group[n].ids, group[n].labels);
    }
  }

  lemma SampleRowIsGood(row: Row, sample: Mapping, mode: Mode, env: Env, tok: Encode, max: nat)
    requires Encodes(tok, max) && FromSample(row, sample, mode, env, tok)
    ensures GoodRow(row, max)
  {
    var full := PlainText(sample, mode, env);
    var prompt :| IsPrompt(prompt, sample, mode, env) && row == LabeledRow(prompt, full, tok);
    CorpusRow(row, prompt, full, tok, max);
  }

  lemma SampleRowsAreGood(rows: seq<Row>, samples: seq<Mapping>, mode: Mode, env: Env, tok: Encode, max: nat)
    requires Encodes(tok, max) && FromSamples(rows, samples, mode, env, tok)
    ensures GoodRows(rows, max)
  {
    forall row | row in rows ensures GoodRow(row, max) {
      var i :| 0 <= i < |rows| && rows[i] == row;
      assert Sampling(mode, env, tok)(rows[i], samples[i]);
      SampleRowIsGood(rows[i], samples[i], mode, env, tok, max);
    }
  }

  lemma TrainedBlocks(normal: seq<Row>, max: nat)
    requires AllTrained(normal)
    ensures var groups := Greedy(normal, max);
            forall i :: 0 <= i < |groups| ==> Honest(JoinIds(groups[i]), JoinLabels(groups[i]))
  {
    var groups := Greedy(normal, max);
    forall i | 0 <= i < |groups| ensures Honest(JoinIds(groups[i]), JoinLabels(groups[i])) {
      GroupsHoldRows(normal, max, i);
      forall row: Row | row in groups[i] ensures Honest(row.ids, row.labels) {
        assert Trained(row);
      }
      HonestGroup(groups[i]);
    }
  }

  /** From samples to packed blocks: the number of trainable labels is conserved, every label
      in a block is ignored or is its own token, and every non-empty row still trains. */
  lemma MasksSurvivePacking(rows: seq<Row>, samples: seq<Mapping>, max: nat, mode: Mode, env: Env, tok: Encode,
                            eos: Option<int>)
    requires max >= 1 && Encodes(tok, max) && FromSamples(rows, samples, mode, env, tok)
    ensures var normal := NormalizeAll(rows, max, eos, IGNORE);
            var ids, labels := IdBlocks(Greedy(normal, max)), LabelBlocks(Greedy(normal, max));
            && Trainable(Flatten(labels)) == Trainable(JoinLabels(rows))
            && |ids| == |labels|
            && (forall i :: 0 <= i < |ids| ==> Honest(ids[i], labels[i]))
            && AllTrained(normal)
  {
    SampleRowsAreGood(rows, samples, mode, env, tok, max);
    NormalRowsKeepLabels(rows, max, eos);
    var normal := NormalizeAll(rows, max, eos, IGNORE);
    PackedBlocksAreTheRows(normal, max);
    TrainedBlocks(normal, max);
  }
}
