/**
 * The `StoreAnalyzer` object of test.py: it holds the cleaned table (`df`)
 * and the sales regression (`model`), both absent until set. It cuts the
 * table into lots exactly as main.py does, sends one summary prompt per lot
 * to the text-generation service, and trains the regression lazily on the
 * first prediction.
 */
module StoreAnalysis {
  import opened Wrappers
  import opened Text
  import opened Batching

  /** One cell of the CSV file; `None` is a missing value (NaN). */
  type Cell = Option<int>

  /** One row of the store table: the three columns the analysis reads, and any others. */
  datatype Record = Record(storeArea: Cell, itemsAvailable: Cell, storeSales: Cell, otherColumns: seq<Cell>)

  /** A row with no missing value in any column. */
  predicate Complete(r: Record) {
    && r.storeArea.Some?
    && r.itemsAvailable.Some?
    && r.storeSales.Some?
    && forall i :: 0 <= i < |r.otherColumns| ==> r.otherColumns[i].Some?
  }

  /** `a` is `b` with some rows removed and the rest kept in order. */
  predicate IsSubsequence(a: seq<Record>, b: seq<Record>)
    decreases |b|
  {
    a == [] || (b != [] && (IsSubsequence(a, b[1..]) || (a[0] == b[0] && IsSubsequence(a[1..], b[1..]))))
  }

  /**
   * `DataFrame.dropna()`: keeps exactly the complete rows, each as often as
   * it occurs, in their original order.
   */
  function DropNa(rows: seq<Record>): (kept: seq<Record>)
    ensures forall i :: 0 <= i < |kept| ==> Complete(kept[i])
    ensures forall r :: multiset(kept)[r] == if Complete(r) then multiset(rows)[r] else 0
    ensures IsSubsequence(kept, rows)
    ensures |kept| <= |rows|
  {
    if rows == [] then []
    else
      assert rows == [rows[0]] + rows[1..];
      var rest := DropNa(rows[1..]);
      if Complete(rows[0]) then [rows[0]] + rest else rest
  }

  /**
   * The dtype pandas gives the `Items_Available` column when it reads the
   * file: whole numbers are read as 64-bit integers, but a column with a blank
   * cell is read as 64-bit floats, and `dropna` does not convert it back.
   */
  datatype ItemsDtype = Int64 | Float64

  function ItemsDtypeOf(table: seq<Record>): ItemsDtype {
    if exists i | 0 <= i < |table| :: table[i].itemsAvailable.None? then Float64 else Int64
  }

  /** A loaded data frame: its rows and the dtype of its `Items_Available` column. */
  datatype Frame = Frame(rows: seq<Record>, itemsDtype: ItemsDtype)

  /** The `Items_Available` value of a row; pandas' `sum` skips a missing value. */
  function ItemsOf(r: Record): int {
    match r.itemsAvailable
    case Some(v) => v
    case None => 0
  }

  /** `rows['Items_Available'].sum()`. */
  function TotalItems(rows: seq<Record>): int {
    if rows == [] then 0 else ItemsOf(rows[0]) + TotalItems(rows[1..])
  }

  /** The `total_items` of every lot, added up. */
  function SumOfLotTotals(lots: seq<seq<Record>>): int {
    if lots == [] then 0 else TotalItems(lots[0]) + SumOfLotTotals(lots[1..])
  }

  lemma {:induction false} TotalItemsConcat(a: seq<Record>, b: seq<Record>)
    ensures TotalItems(a + b) == TotalItems(a) + TotalItems(b)
  {
    if a != [] {
      assert (a + b)[1..] == a[1..] + b;
      TotalItemsConcat(a[1..], b);
    } else {
      assert a + b == b;
    }
  }

  lemma {:induction false} SumOfLotTotalsFlatten(lots: seq<seq<Record>>)
    ensures SumOfLotTotals(lots) == TotalItems(Flatten(lots))
  {
    if lots != [] {
      SumOfLotTotalsFlatten(lots[1..]);
      TotalItemsConcat(lots[0], Flatten(lots[1..]));
    }
  }

  /** Adding up the lots' `total_items` gives the `Items_Available` total of the whole table. */
  lemma LotTotalsAddUp(rows: seq<Record>, chunkSize: nat)
    requires chunkSize > 0
    ensures SumOfLotTotals(ChunkData(rows, chunkSize)) == TotalItems(rows)
  {
    SumOfLotTotalsFlatten(ChunkData(rows, chunkSize));
    FlattenChunkData(rows, chunkSize);
  }

  /**
   * The two averages of a lot's summary as the prompt shows them with `:.2f`:
   * mean `Store_Sales` and mean `Sales_per_Item`. Both are floating-point
   * results, so the model receives their text from an opaque formatter.
   */
  datatype Means = Means(meanSales: string, performance: string)

  /** The indentation test.py's triple-quoted prompt carries on each of its lines. */
  const Indent: string := "            "

  /** The text before the lot number in test.py's prompt. */
  const SummaryLotPrefix: string := "\n" + Indent + "Analyse du lot "

  /** The part of test.py's prompt between the lot number and the items total. */
  function BeforeTotal(means: Means): string {
    ":\n" + Indent + "Moyenne des ventes: " + means.meanSales + "\n" + Indent + "Total des articles: "
  }

  /** The part of test.py's prompt after the items total. */
  function AfterTotal(means: Means): string {
    "\n" + Indent + "Performance moyenne: " + means.performance + "\n" + Indent + "\n" + Indent +
    "Fournir une analyse détaillée de ces métriques et des recommandations.\n" + Indent
  }

  /**
   * How the f-string writes a lot's `total_items`: as `str` of an integer for
   * an integer column, and as the repr of an integral float (`300.0`) for a
   * float column.
   */
  function TotalText(totalItems: int, dtype: ItemsDtype): string {
    match dtype
    case Int64 => IntToString(totalItems)
    case Float64 => IntToString(totalItems) + ".0"
  }

  /** Reads a total back from the text `TotalText` writes for the given dtype. */
  function ParseTotal(text: string, dtype: ItemsDtype): Option<int> {
    match dtype
    case Int64 => ParseInt(text)
    case Float64 =>
      if |text| >= 2 && text[|text| - 2..] == ".0" then ParseInt(text[..|text| - 2]) else None
  }

  lemma TotalTextRoundTrip(totalItems: int, dtype: ItemsDtype)
    ensures ParseTotal(TotalText(totalItems, dtype), dtype) == Some(totalItems)
  {
    IntToStringRoundTrip(totalItems);
    if dtype == Float64 {
      var text := TotalText(totalItems, dtype);
      assert text[..|text| - 2] == IntToString(totalItems);
    }
  }

  /** The prompt test.py builds for lot `lot`. */
  function SummaryPrompt(lot: nat, totalItems: int, dtype: ItemsDtype, means: Means): string {
    SummaryLotPrefix + NatToString(lot) + BeforeTotal(means) + TotalText(totalItems, dtype) + AfterTotal(means)
  }

  /** The summary prompt carries the label `Analyse du lot {lot}`, and the lot number reads back from it. */
  lemma SummaryPromptLabel(lot: nat, totalItems: int, dtype: ItemsDtype, means: Means)
    ensures LabelAfter(SummaryLotPrefix, SummaryPrompt(lot, totalItems, dtype, means)) == Some(lot)
  {
    var rest := BeforeTotal(means) + TotalText(totalItems, dtype) + AfterTotal(means);
    assert SummaryPrompt(lot, totalItems, dtype, means) == SummaryLotPrefix + NatToString(lot) + rest;
    LabelAfterRoundTrip(SummaryLotPrefix, lot, rest);
  }

  /**
   * The total of a lot is written into its prompt in the rendering of its
   * column's dtype, and reads back unchanged.
   */
  lemma SummaryPromptTotal(lot: nat, totalItems: int, dtype: ItemsDtype, means: Means)
    ensures var at := |SummaryLotPrefix| + |NatToString(lot)| + |BeforeTotal(means)|;
      var text := TotalText(totalItems, dtype);
      at + |text| <= |SummaryPrompt(lot, totalItems, dtype, means)| &&
      ParseTotal(SummaryPrompt(lot, totalItems, dtype, means)[at..at + |text|], dtype) == Some(totalItems)
  {
    var text := TotalText(totalItems, dtype);
    var head := SummaryLotPrefix + NatToString(lot) + BeforeTotal(means);
    var prompt := SummaryPrompt(lot, totalItems, dtype, means);
    assert prompt == head + text + AfterTotal(means);
    assert prompt[|head|..|head| + |text|] == text;
    TotalTextRoundTrip(totalItems, dtype);
  }

  /** The answer the service gives for lot `idx`'s summary prompt: one element of `analyses`. */
  function LotAnalysis(idx: nat, lot: seq<Record>, dtype: ItemsDtype, formatMeans: seq<Record> -> Means, generate: string -> string): string {
    generate(SummaryPrompt(idx + 1, TotalItems(lot), dtype, formatMeans(lot)))
  }

  /** The list `analyze_chunks` returns for a loaded table. */
  function Analyses(frame: Frame, chunkSize: nat, formatMeans: seq<Record> -> Means, generate: string -> string): seq<string>
    requires chunkSize > 0
  {
    var lots := ChunkData(frame.rows, chunkSize);
    seq(|lots|, idx requires 0 <= idx < |lots| => LotAnalysis(idx, lots[idx], frame.itemsDtype, formatMeans, generate))
  }

  /** Analysis idx answers the prompt labelled idx + 1 built from rows [idx C, min(idx C + C, N)). */
  lemma AnalysisAt(frame: Frame, chunkSize: nat, formatMeans: seq<Record> -> Means, generate: string -> string, idx: nat)
    requires chunkSize > 0
    requires idx < |Analyses(frame, chunkSize, formatMeans, generate)|
    ensures idx * chunkSize < |frame.rows|
    ensures var lot := frame.rows[idx * chunkSize..Min(idx * chunkSize + chunkSize, |frame.rows|)];
      var prompt := SummaryPrompt(idx + 1, TotalItems(lot), frame.itemsDtype, formatMeans(lot));
      LabelAfter(SummaryLotPrefix, prompt) == Some(idx + 1) &&
      Analyses(frame, chunkSize, formatMeans, generate)[idx] == generate(prompt)
  {
    ChunkDataAt(frame.rows, chunkSize, idx);
    var lot := frame.rows[idx * chunkSize..Min(idx * chunkSize + chunkSize, |frame.rows|)];
    SummaryPromptLabel(idx + 1, TotalItems(lot), frame.itemsDtype, formatMeans(lot));
  }

  /**
   * `analyze_chunks` returns one analysis per lot, in lot order: ceil(N / C)
   * of them, none for an empty table.
   */
  lemma AnalysesCount(frame: Frame, chunkSize: nat, formatMeans: seq<Record> -> Means, generate: string -> string)
    requires chunkSize > 0
    ensures |Analyses(frame, chunkSize, formatMeans, generate)| == CeilDiv(|frame.rows|, chunkSize)
    ensures Analyses(frame, chunkSize, formatMeans, generate) == [] <==> frame.rows == []
  {
    ChunkDataCount(frame.rows, chunkSize);
  }

  /** Why a call on the analyzer fails: `df` is still `None`, and Python raises a TypeError on it. */
  datatype Error = NotLoaded

  /**
   * A fitted `LinearRegression` of `Store_Sales` on `Items_Available`,
   * identified by the table it was fitted from: the 80/20 split with
   * `random_state=42` that picks the training rows is a fixed function of
   * that table. Its coefficients are floating-point results and are not
   * modelled.
   */
  datatype RegressionModel = LinearRegression(fittedFrom: seq<Record>)

  /** `model.predict([[items_available]])`: the value the fitted model gives for an item count. */
  datatype Prediction = Predicted(model: RegressionModel, itemsAvailable: int)

  class StoreAnalyzer {
    /** The Cohere client's `generate` call, as a function from prompt to answer text. */
    const co: string -> string
    var df: Option<Frame>
    var model: Option<RegressionModel>

    /** A fresh analyzer has no table and no model. */
    constructor (co: string -> string)
      ensures this.co == co
      ensures df == None && model == None
    {
      this.co := co;
      df := None;
      model := None;
    }

    /**
     * `load_data`: the table read from the file, without its incomplete rows;
     * its item column keeps the dtype it was read with.
     */
    method LoadData(table: seq<Record>) returns (loaded: Frame)
      modifies this`df
      ensures loaded.rows == DropNa(table)
      ensures loaded.itemsDtype == Float64 <==> exists i :: 0 <= i < |table| && table[i].itemsAvailable.None?
      ensures df == Some(loaded)
    {
      df := Some(Frame(DropNa(table), ItemsDtypeOf(table)));
      loaded := df.value;
    }

    /** `analyze_chunks`: one answer of the service per lot of `chunkSize` rows, in lot order. */
    method AnalyzeChunks(formatMeans: seq<Record> -> Means, chunkSize: nat := DefaultChunkSize)
      returns (analyses: Result<seq<string>, Error>)
      requires chunkSize > 0
      ensures df.None? ==> analyses == Failure(NotLoaded)
      ensures df.Some? ==> analyses == Success(Analyses(df.value, chunkSize, formatMeans, co))
    {
      if df.None? {
        return Failure(NotLoaded);
      }
      var frame := df.value;
      ghost var spec := Analyses(frame, chunkSize, formatMeans, co);
      var result: seq<string> := [];
      var chunks := ChunkData(frame.rows, chunkSize);
      for idx := 0 to |chunks|
        invariant result == spec[..idx]
      {
        var chunk := chunks[idx];
        var prompt := SummaryPrompt(idx + 1, TotalItems(chunk), frame.itemsDtype, formatMeans(chunk));
        var response := co(prompt);
        assert spec[idx] == response;
        result := result + [response];
      }
      assert spec[..|chunks|] == spec;
      analyses := Success(result);
    }

    /** `train_prediction_model`: fits the regression on the current table and keeps it. */
    method TrainPredictionModel() returns (trained: Result<RegressionModel, Error>)
      modifies this`model
      ensures df.None? ==> trained == Failure(NotLoaded) && model == old(model)
      ensures df.Some? ==> trained == Success(LinearRegression(df.value.rows)) && model == Some(trained.value)
    {
      if df.None? {
        return Failure(NotLoaded);
      }
      var fitted := LinearRegression(df.value.rows);
      model := Some(fitted);
      trained := Success(fitted);
    }

    /** `predict_sales`: trains first only when there is no model yet, then predicts. */
    method PredictSales(itemsAvailable: int) returns (prediction: Result<Prediction, Error>)
      modifies this`model
      ensures old(model).Some? ==> model == old(model)
      ensures old(model).None? && df.Some? ==> model == Some(LinearRegression(df.value.rows))
      ensures old(model).None? && df.None? ==> model == None && prediction == Failure(NotLoaded)
      ensures model.Some? ==> prediction == Success(Predicted(model.value, itemsAvailable))
    {
      if model.None? {
        var trained := TrainPredictionModel();
        if trained.Failure? {
          return Failure(trained.error);
        }
      }
      prediction := Success(Predicted(model.value, itemsAvailable));
    }
  }

  /**
   * Two predictions in a row use the same fitted model: the second call does
   * not retrain, even when the table was reloaded in between.
   */
  method PredictTwice(analyzer: StoreAnalyzer, table: seq<Record>, first: int, second: int)
    returns (p1: Result<Prediction, Error>, p2: Result<Prediction, Error>)
    requires analyzer.df.Some? || analyzer.model.Some?
    modifies analyzer
    ensures p1.Success? && p2.Success?
    ensures p1.value.model == p2.value.model
    ensures old(analyzer.model).Some? ==> p1.value.model == old(analyzer.model.value)
    ensures old(analyzer.model).None? ==> p1.value.model == LinearRegression(old(analyzer.df.value.rows))
  {
    p1 := analyzer.PredictSales(first);
    var _ := analyzer.LoadData(table);
    p2 := analyzer.PredictSales(second);
  }

  /**
   * The example run of test.py: load, analyse in lots of 100, train, then
   * predict for 1500 items. The prediction comes from the model trained on
   * the cleaned table, and there is one analysis per lot of that table.
   */
  method ExampleRun(co: string -> string, table: seq<Record>, formatMeans: seq<Record> -> Means)
    returns (analyses: Result<seq<string>, Error>, prediction: Result<Prediction, Error>)
    ensures analyses.Success? && |analyses.value| == CeilDiv(|DropNa(table)|, DefaultChunkSize)
    ensures prediction == Success(Predicted(LinearRegression(DropNa(table)), 1500))
  {
    var analyzer := new StoreAnalyzer(co);
    var _ := analyzer.LoadData(table);
    analyses := analyzer.AnalyzeChunks(formatMeans);
    AnalysesCount(Frame(DropNa(table), ItemsDtypeOf(table)), DefaultChunkSize, formatMeans, co);
    var _ := analyzer.TrainPredictionModel();
    prediction := analyzer.PredictSales(1500);
  }
}
