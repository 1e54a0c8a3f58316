/**
 * The top-level loop of main.py: the table is cut into lots of
 * `DefaultChunkSize` rows, and for each lot, in order, the first five rows are
 * rendered as text, wrapped in a prompt labelled with the 1-based lot number,
 * and sent to the text-generation service, whose answer is printed.
 * Rendering (`DataFrame.to_string`) and the service (`co.generate`) are
 * parameters: opaque functions the model does not look into. The renderer
 * also receives the index label of the first row it shows: main.py's table
 * keeps the 0-based row numbers `read_csv` gives it, and `to_string` prints
 * them, so lot k's preview starts at label k * 100.
 */
module Script {
  import opened Wrappers
  import opened Text
  import opened Batching

  /** How many rows of each lot main.py shows the service: `chunk.head(5)`. */
  const PreviewRows: nat := 5

  /** The text before the lot number in main.py's prompt. */
  const PreviewLotPrefix: string := "Voici les données des magasins (lot "

  /** The text that follows the lot number, up to the rendered rows. */
  const PreviewLotSuffix: string := ") :\n"

  /** The closing instruction of main.py's prompt. */
  const PreviewInstruction: string := "\nAnalyse ces données et donne-moi des insights sur l'optimisation des ventes."

  /**
   * The prompt main.py sends for lot `lot`: the label, the rendered rows
   * verbatim, then the instruction. The label can be read back from it.
   */
  function PreviewPrompt(lot: nat, dataText: string): (prompt: string)
    ensures LabelAfter(PreviewLotPrefix, prompt) == Some(lot)
    ensures var at := |PreviewLotPrefix| + |NatToString(lot)| + |PreviewLotSuffix|;
      at + |dataText| <= |prompt| && prompt[at..at + |dataText|] == dataText
    ensures |PreviewInstruction| <= |prompt| && prompt[|prompt| - |PreviewInstruction|..] == PreviewInstruction
  {
    var rest := PreviewLotSuffix + dataText + PreviewInstruction;
    var prompt := PreviewLotPrefix + NatToString(lot) + rest;
    LabelAfterRoundTrip(PreviewLotPrefix, lot, rest);
    assert prompt == PreviewLotPrefix + NatToString(lot) + PreviewLotSuffix + dataText + PreviewInstruction;
    prompt
  }

  /** What main.py prints for one lot: its number and the service's answer to its prompt. */
  datatype Reply = Reply(lot: nat, prompt: string, text: string)

  /** The replies of main.py's loop `for idx, chunk in enumerate(chunks)`, in lot order. */
  function LotReplies<T>(table: seq<T>, toText: (nat, seq<T>) -> string, generate: string -> string): seq<Reply>
  {
    var chunks := ChunkData(table);
    seq(|chunks|, idx requires 0 <= idx < |chunks| =>
      var prompt := PreviewPrompt(idx + 1, toText(idx * DefaultChunkSize, Head(chunks[idx], PreviewRows)));
      Reply(idx + 1, prompt, generate(prompt)))
  }

  /**
   * Reply idx of main.py's loop: lot number idx + 1, a prompt labelled
   * idx + 1 that shows the first min(5, |lot|) rows of lot idx, rendered from
   * row label idx * 100 on, and the service's answer to exactly that prompt.
   */
  lemma LotReplyAt<T>(table: seq<T>, toText: (nat, seq<T>) -> string, generate: string -> string, idx: nat)
    requires idx < |LotReplies(table, toText, generate)|
    ensures var reply := LotReplies(table, toText, generate)[idx];
      && reply.lot == idx + 1
      && LabelAfter(PreviewLotPrefix, reply.prompt) == Some(idx + 1)
      && reply.text == generate(reply.prompt)
      && (exists preview :: preview <= ChunkData(table)[idx] &&
                            |preview| == Min(PreviewRows, |ChunkData(table)[idx]|) &&
                            reply.prompt == PreviewPrompt(idx + 1, toText(idx * DefaultChunkSize, preview)))
  {
    var chunk := ChunkData(table)[idx];
    var preview := Head(chunk, PreviewRows);
    var prompt := PreviewPrompt(idx + 1, toText(idx * DefaultChunkSize, preview));
    assert LotReplies(table, toText, generate)[idx] == Reply(idx + 1, prompt, generate(prompt));
    assert preview <= chunk && |preview| == Min(PreviewRows, |chunk|);
  }

  /**
   * main.py makes one call per lot: there are ceil(N / 100) replies, none for
   * an empty table, numbered 1, 2, ... in order.
   */
  lemma LotRepliesInOrder<T>(table: seq<T>, toText: (nat, seq<T>) -> string, generate: string -> string)
    ensures |LotReplies(table, toText, generate)| == CeilDiv(|table|, DefaultChunkSize)
    ensures LotReplies(table, toText, generate) == [] <==> table == []
    ensures forall idx :: 0 <= idx < |LotReplies(table, toText, generate)| ==>
      LotReplies(table, toText, generate)[idx].lot == idx + 1
  {
    ChunkDataCount(table, DefaultChunkSize);
  }
}
