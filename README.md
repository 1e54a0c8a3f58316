# Store data analysis: row batching and the store analyzer

This project models the self-contained logic of a small store-data analysis
script in Dafny and proves its properties. The script loads a table of store
records, cuts it into lots ("lots" of rows), sends one prompt per lot to a
hosted text-generation service and collects the answers.

- `batching.dfy` (module `Batching`): `chunk_data` of main.py, the
  comprehension `[df[i:i+chunk_size] for i in range(0, len(df), chunk_size)]`,
  modelled by recursion over the range starts 0, C, 2C, ...; the default chunk
  size 100; `head(5)`. The lemmas prove that the lots concatenate back to the
  table, that there are ceil(N/C) of them, that lot k is rows
  [kC, min(kC + C, N)), that no lot is empty, and that every row sits in exactly
  one lot at one position.
- `script.dfy` (module `Script`): main.py's loop over `enumerate(chunks)`. Each
  lot gets the 1-based number idx+1, a prompt made from its first five rows,
  and exactly one answer, in lot order.
- `store_analysis.dfy` (module `StoreAnalysis`): test.py's `StoreAnalyzer`
  class. It has fields `df` and `model`, both `None` at first. `load_data`
  keeps only complete rows (`dropna`). `analyze_chunks` builds one summary
  prompt per lot and appends one answer per lot. `train_prediction_model`
  sets the model. `predict_sales` trains only when there is no model yet.
  The per-lot `total_items` sums add up to the whole table's total. The
  loaded frame also keeps the dtype of its `Items_Available` column: pandas
  reads that column as floats when the file has a blank cell in it, and the
  prompt then shows the total as `300.0` instead of `300`.
- `text.dfy` (module `Text`): Python's `str(int)` rendering of the lot number
  and of an integer items total, and the parser that reads them back out of a
  prompt.
- `wrappers.dfy` (module `Wrappers`): `Option` and `Result`.

The text-generation service (`co.generate(...).generations[0].text`) is an
opaque function `string -> string`. For `StoreAnalyzer` it is the constant
field `co`. For main.py's loop it is a parameter. The table rendering
`DataFrame.to_string` and the two floating-point means printed with `:.2f`
are also opaque function parameters (`toText`, `formatMeans`). `toText`
receives the index label of the first row it renders as well as the rows,
because `to_string` prints each row's label and main.py's table keeps the
0-based row numbers it was read with.

## Model

| member | source | states |
|---|---|---|
| Batching.CeilDiv | main.py:13 | the number of starts of `range(0, n, c)`: the unique q with q·c − c < n ≤ q·c |
| Batching.FlattenChunkData | main.py:13 | concatenating the chunks in order gives back exactly the input rows |
| Batching.ChunkDataCount | main.py:13 | there are ceil(N/C) chunks, and none exactly when the table is empty |
| Batching.ChunkDataAt | main.py:13 | chunk k is rows [kC, min(kC + C, N)); every chunk but the last has C rows, the last has N − kC rows, each between 1 and C |
| Batching.ChunkDataNonEmpty | main.py:13 | no chunk is empty |
| Batching.ChunkDataHolds | main.py:13 | row kC + i (i < C) of the table is position i of chunk k |
| Batching.ChunkDataRowLocation | main.py:13 | every row j is in chunk j / C at position j mod C |
| Batching.ChunkDataCellLocation | main.py:13 | position i of chunk k is row kC + i, with i < C |
| Batching.ChunkDataDisjoint | main.py:13 | two chunk positions hold the same table row only if they are the same position: chunks do not overlap |
| Batching.ChunkDataSizes | main.py:13 | the chunk sizes add up to N |
| Batching.TwoHundredFiftyRows | main.py:11-16 | with the default size 100, a 250-row table gives three chunks of 100, 100 and 50 rows |
| Batching.Head | main.py:25 | `head(n)` is a prefix of the chunk of length min(n, chunk length) |
| Text.NatToString | main.py:29 | the decimal text of a lot number is digits only, with no leading zero |
| Text.ParseNatToString | main.py:29 | reading the decimal text of n gives back n |
| Text.IntToStringRoundTrip | test.py:55 | `str(total)` of any integer, negative included, reads back as the same integer |
| Text.LabelAfterRoundTrip | test.py:53 | a number written right after a fixed prefix and before a non-digit can be read back from the text |
| Script.PreviewPrompt | main.py:29 | the preview prompt carries its lot number (readable back), the rendered rows verbatim after the label, and ends with the fixed instruction |
| Script.LotReplyAt | main.py:23-31 | reply idx has lot number idx + 1, a prompt labelled idx + 1 that shows a prefix of min(5, length) rows of chunk idx rendered from row label idx·100, and the service's answer to exactly that prompt |
| Script.LotRepliesInOrder | main.py:23-33 | one reply per chunk, ceil(N/100) of them and none for an empty table, with lot numbers 1, 2, ... in increasing order |
| StoreAnalysis.DropNa | test.py:28 | keeps only complete rows, each with its full multiplicity, in their original order (a subsequence), never longer than the input |
| StoreAnalysis.TotalItemsConcat | test.py:47 | the `Items_Available` sum of two row runs put together is the sum of their sums |
| StoreAnalysis.LotTotalsAddUp | test.py:41-47 | summing every lot's `total_items` gives the whole table's `Items_Available` total |
| StoreAnalysis.SummaryPromptLabel | test.py:52-53 | the summary prompt carries the label `Analyse du lot {idx+1}`, and that number reads back from it |
| StoreAnalysis.TotalTextRoundTrip | test.py:47-55 | the items total, written as `str` of an integer for an integer column and as `300.0`-style float text for a float column, reads back as the same value for either dtype |
| StoreAnalysis.SummaryPromptTotal | test.py:55 | the lot's items total appears in the prompt, written for its column's dtype, and reads back unchanged |
| StoreAnalysis.AnalysisAt | test.py:41-69 | analysis idx is the service's answer to the prompt labelled idx + 1 built from rows [idx·C, min(idx·C + C, N)) |
| StoreAnalysis.AnalysesCount | test.py:40-43 | there is one analysis per lot, ceil(N/C) of them, and none for an empty table |
| StoreAnalysis.StoreAnalyzer.constructor | test.py:11-18 | a fresh analyzer keeps the client and has `df = None` and `model = None` |
| StoreAnalysis.StoreAnalyzer.LoadData | test.py:20-32 | `df` becomes the `dropna` of the table read, which is also returned; its item column is float exactly when the table read had a blank item cell; the model is untouched |
| StoreAnalysis.StoreAnalyzer.AnalyzeChunks | test.py:34-71 | fails when `df` is `None`; otherwise the loop appends, in lot order, exactly one answer per lot of `df` |
| StoreAnalysis.StoreAnalyzer.TrainPredictionModel | test.py:106-119 | fails when `df` is `None`; otherwise sets `model` to the regression fitted on the current `df` |
| StoreAnalysis.StoreAnalyzer.PredictSales | test.py:133-143 | trains only when `model` is `None`; a present model is kept; the prediction uses the model in place afterwards |
| StoreAnalysis.PredictTwice | test.py:139-142 | two predictions in a row use the same model, even when the table is reloaded in between: the second call does not retrain |
| StoreAnalysis.ExampleRun | test.py:146-161 | the example run gives one analysis per 100-row lot of the cleaned table and a prediction for 1500 items from the model fitted on that table; it promises success for every table, so it inherits the scikit-learn error gap listed for `TrainPredictionModel` under "## Left out" (a cleaned table of 0 or 1 rows makes the split raise) |

## Left out

- The text-generation service (`co.generate` in main.py:27-31 and test.py:62-67): a remote service, modelled only as an opaque function from prompt to text. test.py calls it with `temperature=0.7`, so the same prompt can get different answers; the model gives one fixed answer per prompt. Its failures (authentication, rate limit, network) are not modelled.
- Reading the CSV file (main.py:8, test.py:25): the table is an input sequence of records.
- `DataFrame.to_string` (main.py:25): library formatting, an opaque parameter `toText` that receives the first row's index label and the rows.
- The two means and their `:.2f` formatting (test.py:46, test.py:48, test.py:54, test.py:56): floating point, supplied as text by the opaque parameter `formatMeans`.
- The `Sales_per_Item` column (test.py:31): a floating-point division that gives inf or NaN when the item count is 0; its only use is the mean above.
- Cell values are integers. The model reads only their presence and the integer `Items_Available` sum.
- StoreAnalysis.TotalItems: the sum is an unbounded integer. pandas sums an integer column in 64-bit integers and a float column in doubles; overflow and the rounding of doubles above 2^53 are not modelled, because store item counts stay far below them.
- StoreAnalysis.TotalText: a float total is written as its digits followed by `.0`; Python switches to exponent notation (`1e+16`) from 10^16 on, which is not modelled.
- The regression numerics (test.py:111-131, test.py:142): the fit, R², RMSE, coefficients and predicted values are scikit-learn floating point. A fitted model is identified by the table it was fitted from; the 80/20 split with `random_state=42` is a fixed function of that table. A prediction is that model paired with the item count.
- StoreAnalysis.StoreAnalyzer.TrainPredictionModel: returns the fitted model instead of the metrics dictionary, and does not model errors raised inside scikit-learn (such as a table too small for the 80/20 split: a cleaned table of 0 or 1 rows). ExampleRun and PredictTwice promise success for such tables too, and inherit this gap.
- `create_visualizations` (test.py:73-104) and the plot in main.py:39-46: display side effects.
- Printing of answers and results (main.py:33-34, main.py:51-52, test.py:163-164).
- main.py:50 reads the answer left over from the loop's last lap (a NameError when there were no lots): a script artefact, not logic.
- The API key is a literal in the scripts; the model takes the client as a parameter and does not carry any key.
- A chunk size of 0 or less: Python's `range` raises for 0 and yields nothing for a negative step; the code has no check of its own, so the model requires a positive size.
