/** The classification pipeline of `PostsToSentiment.predict_sentiment`: query-prefixed, stripped
    and truncated texts are cut into batches, classified batch by batch, reassembled in input order,
    reduced to one emotion per post (optionally skipping a top `neutral`) and mapped to a funnel stage. */
module PostsToSentiment {
  import opened Wrappers
  import opened Seqs
  import opened Text
  import opened FunnelStages

  /** One post's predicted labels, highest confidence first (the scores themselves are not kept). */
  type Ranking = seq<string>

  /** The text-classification pipeline: given `top_k` and a batch of texts, one ranking per text,
      or None where the pipeline raises. */
  type Classifier = (nat, seq<string>) -> Option<seq<Ranking>>

  /** The settings of a `PostsToSentiment` object that the classification logic reads. */
  datatype Config = Config(loadFilename: string, query: string, batchSize: int, suppressNeutral: bool)

  /** One row of the posts frame: the `text` cell (None for a missing, NaN cell) and the two
      columns that classification adds (None until they are assigned). */
  datatype Row = Row(text: Option<string>, emotion: Option<string>, funnelStage: Option<string>)

  /** The exceptions `predict_sentiment` can raise on its own account. */
  datatype Failure =
    | RangeStepZero   // `range(0, len(texts), 0)` raises ValueError
    | RankingTooShort // `pred[0]` or `pred[1]` raises IndexError
    | LengthMismatch  // assigning a list of the wrong length to a frame column raises ValueError
    | ClassifierError // an exception raised by the pipeline on some batch escapes `executor.map`

  /** The name `predict_sentiment` saves under and returns. */
  function SaveFilename(savefilename: Option<string>, loadFilename: string): (name: string)
    ensures savefilename.Some? ==> name == savefilename.value
    ensures savefilename.None? ==> name == "labeled_posts_" + loadFilename
  {
    match savefilename
    case Some(n) => n
    case None => "labeled_posts_" + loadFilename
  }

  /** The `top_k` the classifier is built with: two labels when a top `neutral` may be skipped. */
  function TopK(suppressNeutral: bool): (k: nat)
    ensures k >= 1
    ensures k == 2 <==> suppressNeutral
    ensures !suppressNeutral ==> k == 1
  {
    if suppressNeutral then 2 else 1
  }

  /** `f"Query: {query}. Post: " + text` on one cell; a missing cell stays missing. */
  function Prefixed(query: string, text: Option<string>): (r: Option<string>)
    ensures r.Some? <==> text.Some?
    ensures r.Some? ==> r.value == "Query: " + query + ". Post: " + text.value
  {
    match text
    case Some(t) => Some("Query: " + query + ". Post: " + t)
    case None => None
  }

  /** `t.strip()[:max_text_len]`: a prefix of the stripped text, never longer than the limit. */
  function PreparedText(text: string, maxTextLen: int): (t: string)
    ensures t <= Strip(text)
    ensures maxTextLen >= 0 ==> |t| == if |Strip(text)| < maxTextLen then |Strip(text)| else maxTextLen
  {
    SlicePrefix(Strip(text), maxTextLen)
  }

  /** A cell that holds a string. */
  predicate IsPresent(cell: Option<string>)
  {
    cell.Some?
  }

  /** The string cells of a column, in order (`if isinstance(t, str)`). */
  function PresentTexts(column: seq<Option<string>>): (texts: seq<string>)
    ensures |texts| <= |column|
    ensures |texts| == |column| <==> forall i :: 0 <= i < |column| ==> column[i].Some?
    ensures |texts| == |column| ==> forall i :: 0 <= i < |column| ==> texts[i] == column[i].value
  {
    if column == [] then []
    else match column[0]
      case Some(t) => [t] + PresentTexts(column[1..])
      case None => PresentTexts(column[1..])
  }

  /** The texts kept are exactly the values of the cells that a present-cell mask keeps, in order. */
  lemma {:induction false} PresentTextsAreMasked(column: seq<Option<string>>)
    ensures var kept := Filter(column, IsPresent);
      |PresentTexts(column)| == |kept| &&
      forall i :: 0 <= i < |kept| ==> kept[i].Some? && PresentTexts(column)[i] == kept[i].value
  {
    if column != [] {
      PresentTextsAreMasked(column[1..]);
      var rest := Filter(column[1..], IsPresent);
      assert Filter(column, IsPresent) == (if IsPresent(column[0]) then [column[0]] else []) + rest;
    }
  }

  /** `[t.strip()[:max_text_len] for t in texts if isinstance(t, str)]`. */
  function PrepareTexts(column: seq<Option<string>>, maxTextLen: int): (texts: seq<string>)
    ensures Aligned(texts, PresentTexts(column), t => PreparedText(t, maxTextLen))
    ensures maxTextLen >= 0 ==> forall i :: 0 <= i < |texts| ==> |texts[i]| <= maxTextLen
  {
    var present := PresentTexts(column);
    seq(|present|, i requires 0 <= i < |present| => PreparedText(present[i], maxTextLen))
  }

  /** `[xs[i:i + size] for i in range(0, len(xs), size)]`. For a positive size the chunks are
      non-empty, at most `size` long, all but the last exactly `size` long, and concatenate back to
      `xs`; a negative size gives an empty range. */
  function Chunks<T>(xs: seq<T>, size: int): (chunks: seq<seq<T>>)
    requires size != 0
    ensures size < 0 ==> chunks == []
    ensures size > 0 ==> Flatten(chunks) == xs
    ensures forall k :: 0 <= k < |chunks| ==> 0 < |chunks[k]| <= size
    ensures forall k :: 0 <= k < |chunks| - 1 ==> |chunks[k]| == size
    decreases |xs|
  {
    if size < 0 || xs == [] then []
    else if |xs| <= size then [xs]
    else [xs[..size]] + Chunks(xs[size..], size)
  }

  /** `list(executor.map(_predict_batch, chunks))`: one classifier call per chunk, results in chunk
      order; None when the call on some chunk raises. */
  function ClassifyChunks(classify: Classifier, topK: nat, chunks: seq<seq<string>>)
    : (results: Option<seq<seq<Ranking>>>)
    ensures results.Some? <==> forall k :: 0 <= k < |chunks| ==> classify(topK, chunks[k]).Some?
    ensures results.Some? ==>
      |results.value| == |chunks| &&
      forall k :: 0 <= k < |chunks| ==> results.value[k] == classify(topK, chunks[k]).value
  {
    if chunks == [] then Some([])
    else match (classify(topK, chunks[0]), ClassifyChunks(classify, topK, chunks[1..]))
      case (Some(r), Some(rs)) => Some([r] + rs)
      case _ => None
  }

  /** The operative emotion of one prediction: `pred[0]["label"]`, or with neutral suppression
      `pred[1]["label"]` when the top label is `neutral`; None where that indexing raises. */
  function SelectEmotion(ranking: Ranking, suppressNeutral: bool): (emotion: Option<string>)
    ensures emotion.Some? <==> |ranking| >= 1 && (suppressNeutral && ranking[0] == "neutral" ==> |ranking| >= 2)
    ensures emotion.Some? ==> emotion.value in ranking
    ensures emotion.Some? && (!suppressNeutral || ranking[0] != "neutral") ==> emotion.value == ranking[0]
    ensures emotion.Some? && suppressNeutral && ranking[0] == "neutral" ==> emotion.value == ranking[1]
    ensures emotion.Some? && suppressNeutral && emotion.value == "neutral" ==> ranking[..2] == ["neutral", "neutral"]
  {
    if |ranking| == 0 then None
    else if !suppressNeutral || ranking[0] != "neutral" then Some(ranking[0])
    else if |ranking| >= 2 then Some(ranking[1])
    else None
  }

  /** A classifier built with `top_k = TopK(suppress_neutral)` makes the selection total. */
  lemma TopKSuffices(ranking: Ranking, suppressNeutral: bool)
    requires |ranking| >= TopK(suppressNeutral)
    ensures SelectEmotion(ranking, suppressNeutral).Some?
  {
  }

  /** The emotion column: one selection per prediction, failing as a whole if any one fails. */
  function SelectEmotions(preds: seq<Ranking>, suppressNeutral: bool): (emotions: Option<seq<string>>)
    ensures emotions.Some? <==> forall i :: 0 <= i < |preds| ==> SelectEmotion(preds[i], suppressNeutral).Some?
    ensures emotions.Some? ==> |emotions.value| == |preds|
    ensures emotions.Some? ==> forall i :: 0 <= i < |preds| ==> emotions.value[i] == SelectEmotion(preds[i], suppressNeutral).value
  {
    if preds == [] then Some([])
    else match (SelectEmotion(preds[0], suppressNeutral), SelectEmotions(preds[1..], suppressNeutral))
      case (Some(e), Some(es)) => Some([e] + es)
      case _ => None
  }

  /** The text column of a frame. */
  function TextColumn(rows: seq<Row>): (column: seq<Option<string>>)
    ensures |column| == |rows|
  {
    seq(|rows|, i requires 0 <= i < |rows| => rows[i].text)
  }

  /** What `predict_sentiment` assigns to `df["emotion"]` for the original text column, or the
      exception it raises on the way. */
  function EmotionColumn(cfg: Config, column: seq<Option<string>>, classify: Classifier, maxTextLen: int)
    : Result<seq<string>, Failure>
  {
    if cfg.batchSize == 0 then Failure(RangeStepZero)
    else
      var texts := PrepareTexts(PrefixedColumn(cfg.query, column), maxTextLen);
      match ClassifyChunks(classify, TopK(cfg.suppressNeutral), Chunks(texts, cfg.batchSize))
      case None => Failure(ClassifierError)
      case Some(results) =>
        match SelectEmotions(Flatten(results), cfg.suppressNeutral)
        case None => Failure(RankingTooShort)
        case Some(emotions) => if |emotions| != |column| then Failure(LengthMismatch) else Success(emotions)
  }

  /** The query-prefixed column, one cell per row. */
  function PrefixedColumn(query: string, column: seq<Option<string>>): (prefixed: seq<Option<string>>)
    ensures |prefixed| == |column|
    ensures forall i :: 0 <= i < |column| ==> prefixed[i] == Prefixed(query, column[i])
  {
    seq(|column|, i requires 0 <= i < |column| => Prefixed(query, column[i]))
  }

  /** With no missing text, the classifier gets one prepared text per row: row `i`'s text with the
      query prefix, stripped and truncated. */
  lemma PreparedPerRow(query: string, column: seq<Option<string>>, maxTextLen: int)
    requires forall i :: 0 <= i < |column| ==> column[i].Some?
    ensures var texts := PrepareTexts(PrefixedColumn(query, column), maxTextLen);
      |texts| == |column| &&
      forall i :: 0 <= i < |column| ==>
        texts[i] == PreparedText("Query: " + query + ". Post: " + column[i].value, maxTextLen)
  {
    var prefixed := PrefixedColumn(query, column);
    assert |PresentTexts(prefixed)| == |prefixed|;
  }

  /** The classifier never raises and labels each text on its own: a batch gets one ranking per
      text, `rank` of that text, in order. */
  ghost predicate LabelsEachText(classify: Classifier, topK: nat, rank: string -> Ranking)
  {
    forall batch :: classify(topK, batch).Some? && Aligned(classify(topK, batch).value, batch, rank)
  }

  /** Batching is invisible to a classifier that labels each text on its own: the flattened
      per-batch results are one ranking per text, in input order, for any positive batch size. */
  lemma BatchedPredictionsAligned(classify: Classifier, topK: nat, texts: seq<string>, size: int,
                                  rank: string -> Ranking)
    requires size > 0
    requires LabelsEachText(classify, topK, rank)
    ensures var results := ClassifyChunks(classify, topK, Chunks(texts, size));
      results.Some? && Aligned(Flatten(results.value), texts, rank)
  {
    var chunks := Chunks(texts, size);
    var results := ClassifyChunks(classify, topK, chunks).value;
    forall k | 0 <= k < |chunks| ensures Aligned(results[k], chunks[k], rank) {
      assert results[k] == classify(topK, chunks[k]).value;
    }
    FlattenAligned(results, chunks, rank);
  }

  /** A ranking per text, each at least `top_k` long, gives an emotion per text. */
  lemma AllSelectable(preds: seq<Ranking>, suppressNeutral: bool)
    requires forall i :: 0 <= i < |preds| ==> |preds[i]| >= TopK(suppressNeutral)
    ensures SelectEmotions(preds, suppressNeutral).Some?
  {
    forall i | 0 <= i < |preds| ensures SelectEmotion(preds[i], suppressNeutral).Some? {
      TopKSuffices(preds[i], suppressNeutral);
    }
  }

  /** With a classifier that labels each text on its own (`rank`) and returns at least `top_k`
      labels, and no missing text, the emotion column is computed post by post: entry `i` is the
      selection from the ranking of post `i`'s own prepared text, whatever the batch size. */
  lemma EmotionColumnPerPost(cfg: Config, column: seq<Option<string>>, classify: Classifier,
                             rank: string -> Ranking, maxTextLen: int)
    requires cfg.batchSize > 0
    requires forall i :: 0 <= i < |column| ==> column[i].Some?
    requires LabelsEachText(classify, TopK(cfg.suppressNeutral), rank)
    requires forall t :: |rank(t)| >= TopK(cfg.suppressNeutral)
    ensures EmotionColumn(cfg, column, classify, maxTextLen).Success?
    ensures var emotions := EmotionColumn(cfg, column, classify, maxTextLen).value;
      |emotions| == |column| &&
      forall i :: 0 <= i < |column| ==>
        Some(emotions[i]) == SelectEmotion(rank(PreparedText("Query: " + cfg.query + ". Post: " + column[i].value, maxTextLen)),
                                           cfg.suppressNeutral)
  {
    var topK := TopK(cfg.suppressNeutral);
    var texts := PrepareTexts(PrefixedColumn(cfg.query, column), maxTextLen);
    PreparedPerRow(cfg.query, column, maxTextLen);
    BatchedPredictionsAligned(classify, topK, texts, cfg.batchSize, rank);
    var preds := Flatten(ClassifyChunks(classify, topK, Chunks(texts, cfg.batchSize)).value);
    AllSelectable(preds, cfg.suppressNeutral);
  }

  /** A missing text is dropped from the texts sent to the classifier, so a classifier that
      answers once per text yields fewer predictions than rows and the column assignment fails. */
  lemma MissingTextFails(cfg: Config, column: seq<Option<string>>, classify: Classifier,
                         rank: string -> Ranking, maxTextLen: int, missing: nat)
    requires cfg.batchSize > 0
    requires missing < |column| && column[missing].None?
    requires LabelsEachText(classify, TopK(cfg.suppressNeutral), rank)
    requires forall t :: |rank(t)| >= TopK(cfg.suppressNeutral)
    ensures EmotionColumn(cfg, column, classify, maxTextLen) == Failure(LengthMismatch)
  {
    var topK := TopK(cfg.suppressNeutral);
    var prefixed := PrefixedColumn(cfg.query, column);
    var texts := PrepareTexts(prefixed, maxTextLen);
    BatchedPredictionsAligned(classify, topK, texts, cfg.batchSize, rank);
    var preds := Flatten(ClassifyChunks(classify, topK, Chunks(texts, cfg.batchSize)).value);
    AllSelectable(preds, cfg.suppressNeutral);
    assert prefixed[missing].None?;
    assert |PresentTexts(prefixed)| < |column|;
  }

  /** An exception from the pipeline on any one batch escapes: no emotion column is produced. */
  lemma ClassifierErrorEscapes(cfg: Config, column: seq<Option<string>>, classify: Classifier,
                               maxTextLen: int, k: nat)
    requires cfg.batchSize != 0
    requires var chunks := Chunks(PrepareTexts(PrefixedColumn(cfg.query, column), maxTextLen), cfg.batchSize);
      k < |chunks| && classify(TopK(cfg.suppressNeutral), chunks[k]).None?
    ensures EmotionColumn(cfg, column, classify, maxTextLen) == Failure(ClassifierError)
  {
  }

  /** The batches classified one after another, each result appended in turn; the first batch
      whose call raises ends the run. */
  method ClassifyInOrder(classify: Classifier, topK: nat, chunks: seq<seq<string>>)
    returns (results: Option<seq<seq<Ranking>>>)
    ensures results == ClassifyChunks(classify, topK, chunks)
  {
    var done: seq<seq<Ranking>> := [];
    var k := 0;
    while k < |chunks|
      invariant 0 <= k <= |chunks| && |done| == k
      invariant forall j :: 0 <= j < k ==> classify(topK, chunks[j]).Some? && done[j] == classify(topK, chunks[j]).value
    {
      var r := classify(topK, chunks[k]);
      if r.None? {
        return None;
      }
      done := done + [r.value];
      k := k + 1;
    }
    assert ClassifyChunks(classify, topK, chunks).Some?;
    assert done == ClassifyChunks(classify, topK, chunks).value;
    return Some(done);
  }

  /** `predict_sentiment` on a frame held in `rows`: the text column is overwritten with the
      query-prefixed text, then (unless an exception is raised first) the emotion and funnel stage
      columns are assigned and the save name is returned. The batches are classified one after
      another, which gives the same result as the thread pool because `executor.map` keeps order. */
  method PredictSentiment(cfg: Config, rows: array<Row>, classify: Classifier,
                          savefilename: Option<string>, maxTextLen: int)
    returns (outcome: Result<string, Failure>)
    modifies rows
    ensures forall i :: 0 <= i < rows.Length ==> rows[i].text == Prefixed(cfg.query, old(rows[i].text))
    ensures var column := EmotionColumn(cfg, old(TextColumn(rows[..])), classify, maxTextLen);
      match column
      case Success(emotions) =>
        && outcome == Success(SaveFilename(savefilename, cfg.loadFilename))
        && |emotions| == rows.Length
        && forall i :: 0 <= i < rows.Length ==>
             rows[i].emotion == Some(emotions[i]) && rows[i].funnelStage == Some(MapEmotionToStage(emotions[i]))
      case Failure(e) =>
        && outcome == Failure(e)
        && forall i :: 0 <= i < rows.Length ==>
             rows[i].emotion == old(rows[i].emotion) && rows[i].funnelStage == old(rows[i].funnelStage)
  {
    var name := SaveFilename(savefilename, cfg.loadFilename);
    ghost var original := TextColumn(rows[..]);
    forall i | 0 <= i < rows.Length {
      rows[i] := rows[i].(text := Prefixed(cfg.query, rows[i].text));
    }
    var column := TextColumn(rows[..]);
    assert column == PrefixedColumn(cfg.query, original);
    var texts := PrepareTexts(column, maxTextLen);
    if cfg.batchSize == 0 {
      return Failure(RangeStepZero);
    }
    var chunks := Chunks(texts, cfg.batchSize);
    var results := ClassifyInOrder(classify, TopK(cfg.suppressNeutral), chunks);
    if results.None? {
      return Failure(ClassifierError);
    }
    var predictions := Flatten(results.value);
    var emotions := SelectEmotions(predictions, cfg.suppressNeutral);
    if emotions.None? {
      return Failure(RankingTooShort);
    }
    if |emotions.value| != rows.Length {
      return Failure(LengthMismatch);
    }
    var labels := emotions.value;
    forall i | 0 <= i < rows.Length {
      rows[i] := rows[i].(emotion := Some(labels[i]), funnelStage := Some(MapEmotionToStage(labels[i])));
    }
    return Success(name);
  }
}
