/**
 * The query side of the pipeline: the question is embedded, every stored
 * chunk is scored against it, the best `top_k` are kept, and their texts are
 * numbered into a prompt for the chat model.
 *
 * The similarity measure is abstract: any function that orders rows by a real
 * score, or raises. The embedding service, the database scan and the chat
 * model are oracle parameters.
 */
module SearchDocuments {
  import opened Common
  import opened Strings
  import opened StableSort

  /** One row of `SELECT id, chunk_content, embedding, source_file, chunking_method FROM document_chunks`. */
  datatype ScannedRow = ScannedRow(id: int, chunkContent: string, embedding: Vector, sourceFile: string, chunkingMethod: string)

  /** One entry of the search result (the dictionary built per row). */
  datatype Hit = Hit(id: int, text: string, filename: string, splitStrategy: string, similarity: real)

  /** The exception that leaves `search_similar_chunks`: the query embedding call is outside its handler. */
  datatype Raised = QueryEmbeddingFailed

  /** The embedding service on one query; `None` means the call raised. */
  type QueryEmbedder = string -> Option<Vector>

  /** The score of a stored vector against the query vector; `None` means the computation raised. */
  type Similarity = (Vector, Vector) -> Option<real>

  /** The chat model; `None` means the call raised. */
  type ChatModel = string -> Option<string>

  /** The sort key: `lambda x: x["similarity"]`. */
  function SimilarityOf(h: Hit): real
  {
    h.similarity
  }

  /** The entry built for a scanned row with its score. */
  function ToHit(row: ScannedRow, score: real): Hit
  {
    Hit(row.id, row.chunkContent, row.sourceFile, row.chunkingMethod, score)
  }

  /**
   * The entries built for the scanned rows, in scan order, or `None` when
   * scoring some row raises.
   */
  function ScoreAll(q: Vector, rows: seq<ScannedRow>, similarity: Similarity): (r: Option<seq<Hit>>)
    ensures r.Some? <==> forall i :: 0 <= i < |rows| ==> similarity(q, rows[i].embedding).Some?
    ensures r.Some? ==> |r.value| == |rows|
    ensures r.Some? ==> forall i :: 0 <= i < |rows| ==>
      r.value[i] == ToHit(rows[i], similarity(q, rows[i].embedding).value)
  {
    if rows == [] then Some([])
    else
      var last := rows[|rows| - 1];
      match (ScoreAll(q, rows[..|rows| - 1], similarity), similarity(q, last.embedding))
      case (Some(hits), Some(score)) => Some(hits + [ToHit(last, score)])
      case _ => None
  }

  /** The entries ordered by non-increasing similarity, stably (`chunks.sort(key=..., reverse=True)`). */
  function Ranked(hits: seq<Hit>): seq<Hit>
  {
    SortDesc(hits, SimilarityOf)
  }

  /** `chunks[:top_k]` after the sort. */
  function TopK(hits: seq<Hit>, topK: int): seq<Hit>
  {
    Ranked(hits)[..SliceStop(|hits|, topK)]
  }

  /** The entries of the sorted scan that `chunks[:top_k]` leaves out. */
  function Dropped(hits: seq<Hit>, topK: int): seq<Hit>
  {
    Ranked(hits)[SliceStop(|hits|, topK)..]
  }

  /**
   * Specification of `search_similar_chunks`: a failing query embedding
   * propagates; a failing database block (connection, scan or scoring) yields
   * the empty list; otherwise the `top_k` best-scored entries.
   */
  function Retrieve(query: string, topK: int, embedQuery: QueryEmbedder, scan: Option<seq<ScannedRow>>, similarity: Similarity)
    : (r: Result<seq<Hit>, Raised>)
    ensures r.Failure? <==> embedQuery(query).None?
    ensures embedQuery(query).Some? && (scan.None? || scan == Some([])) ==> r == Success([])
    ensures embedQuery(query).Some? && scan.Some? &&
      (exists i :: 0 <= i < |scan.value| && similarity(embedQuery(query).value, scan.value[i].embedding).None?)
      ==> r == Success([])
  {
    match embedQuery(query)
    case None => Failure(QueryEmbeddingFailed)
    case Some(q) =>
      match scan
      case None => Success([])
      case Some(rows) =>
        match ScoreAll(q, rows, similarity)
        case None => Success([])
        case Some(hits) => Success(TopK(hits, topK))
  }

  /**
   * `search_similar_chunks`: embeds the query, builds one entry per scanned
   * row, sorts the entries by descending similarity and keeps the first
   * `top_k`. `scan` is what the database block delivers, `None` when the
   * connection or the query raised.
   */
  method SearchSimilarChunks(query: string, topK: int, embedQuery: QueryEmbedder, scan: Option<seq<ScannedRow>>, similarity: Similarity)
    returns (r: Result<seq<Hit>, Raised>)
    ensures r == Retrieve(query, topK, embedQuery, scan, similarity)
  {
    var queryEmbedding := embedQuery(query);
    if queryEmbedding.None? {
      return Failure(QueryEmbeddingFailed);
    }
    var q := queryEmbedding.value;
    if scan.None? {
      return Success([]);
    }
    var rows := scan.value;
    var chunks: seq<Hit> := [];
    var i := 0;
    while i < |rows|
      invariant i <= |rows|
      invariant ScoreAll(q, rows[..i], similarity) == Some(chunks)
    {
      var score := similarity(q, rows[i].embedding);
      if score.None? {
        assert ScoreAll(q, rows, similarity).None?;
        return Success([]);
      }
      assert rows[..i + 1][..i] == rows[..i];
      chunks := chunks + [ToHit(rows[i], score.value)];
      i := i + 1;
    }
    assert rows[..i] == rows;
    chunks := Ranked(chunks);
    var topChunks := chunks[..SliceStop(|chunks|, topK)];
    return Success(topChunks);
  }

  /** `top_k` entries are kept when there are that many, all of them otherwise; a negative `top_k` drops from the end. */
  lemma TopKLength(hits: seq<Hit>, topK: int)
    ensures topK >= 0 ==> |TopK(hits, topK)| == Min(topK, |hits|)
    ensures topK < 0 ==> |TopK(hits, topK)| == Max(|hits| + topK, 0)
  {
  }

  /** The kept entries are in non-increasing similarity order. */
  lemma TopKOrdered(hits: seq<Hit>, topK: int)
    ensures SortedDesc(TopK(hits, topK), SimilarityOf)
  {
    SortDescSorted(hits, SimilarityOf);
  }

  /**
   * The kept entries together with the dropped ones are exactly the scored
   * entries, and no dropped entry scores higher than any kept one.
   */
  lemma TopKSelectsBest(hits: seq<Hit>, topK: int)
    ensures multiset(TopK(hits, topK)) + multiset(Dropped(hits, topK)) == multiset(hits)
    ensures forall x, y :: x in TopK(hits, topK) && y in Dropped(hits, topK) ==> x.similarity >= y.similarity
  {
    var ranked := Ranked(hits);
    SortDescPermutes(hits, SimilarityOf);
    SortDescSorted(hits, SimilarityOf);
    var cut := SliceStop(|hits|, topK);
    var top, dropped := TopK(hits, topK), Dropped(hits, topK);
    assert ranked == top + dropped;
    forall x, y | x in top && y in dropped
      ensures x.similarity >= y.similarity
    {
      var a :| 0 <= a < |top| && top[a] == x;
      var b :| 0 <= b < |dropped| && dropped[b] == y;
      assert ranked[a] == x && ranked[cut + b] == y;
      assert SimilarityOf(ranked[a]) >= SimilarityOf(ranked[cut + b]);
    }
  }

  lemma {:induction false} WithKeyOfPrefix(s: seq<Hit>, n: nat, v: real)
    requires n <= |s|
    ensures WithKey(s[..n], SimilarityOf, v) <= WithKey(s, SimilarityOf, v)
  {
    if n > 0 {
      WithKeyOfPrefix(s[1..], n - 1, v);
      assert s[..n][1..] == s[1..][..n - 1];
    }
  }

  /**
   * Stability: for every similarity value, the kept entries with that value
   * are the first ones with that value in scan order, in scan order.
   */
  lemma TopKKeepsScanOrder(hits: seq<Hit>, topK: int, v: real)
    ensures WithKey(TopK(hits, topK), SimilarityOf, v) <= WithKey(hits, SimilarityOf, v)
  {
    var ranked := Ranked(hits);
    WithKeyOfPrefix(ranked, SliceStop(|hits|, topK), v);
    SortDescStable(hits, SimilarityOf, v);
  }

  const NoInformation: string := "No relevant information found in the database."
  const GenerationError: string := "Error generating answer."
  const Instructions: string :=
    "You are helpful assistant specialized in recipe questions. Use the context to provide clear and accurate answers."

  /** The block for the chunk numbered `number`: `f"Context {number}:\n{text}"`. */
  function ContextBlock(number: nat, text: string): string
  {
    "Context " + NatToString(number) + ":\n" + text
  }

  /** One block per chunk, numbered from 1 in input order. */
  function ContextBlocks(chunks: seq<Hit>): seq<string>
  {
    seq(|chunks|, i requires 0 <= i < |chunks| => ContextBlock(i + 1, chunks[i].text))
  }

  /** The blocks joined by blank lines. */
  function Context(chunks: seq<Hit>): string
  {
    Join("\n\n", ContextBlocks(chunks))
  }

  /** The prompt template around the context and the query. */
  function Prompt(query: string, context: string): string
  {
    Instructions + "\n\n" + context + "\n\nUser Query: " + query + "\n\nYour Answer:"
  }

  /** The reply of `generate_answer`, with the prompt sent to the chat model (`None` when it is not called). */
  datatype Reply = Reply(answer: string, prompt: Option<string>)

  /**
   * `generate_answer`: with no chunks, a fixed answer and no call to the
   * model; otherwise one call with the prompt, whose failure becomes a fixed
   * error answer.
   */
  function GenerateAnswer(query: string, chunks: seq<Hit>, llm: ChatModel): (r: Reply)
    ensures r.prompt.None? <==> chunks == []
    ensures r.prompt.None? ==> r.answer == NoInformation
    ensures r.prompt.Some? ==> r.answer == (if llm(r.prompt.value).Some? then llm(r.prompt.value).value else GenerationError)
  {
    if chunks == [] then Reply(NoInformation, None)
    else
      var prompt := Prompt(query, Context(chunks));
      match llm(prompt)
      case Some(content) => Reply(content, Some(prompt))
      case None => Reply(GenerationError, Some(prompt))
  }

  /** What the chat model is asked: the template, filled with the numbered context and the query. */
  lemma PromptSent(query: string, chunks: seq<Hit>, llm: ChatModel)
    requires chunks != []
    ensures GenerateAnswer(query, chunks, llm).prompt ==
      Some(Instructions + "\n\n" + Context(chunks) + "\n\nUser Query: " + query + "\n\nYour Answer:")
  {
  }

  /** A single chunk gives a single block numbered 1. */
  lemma ContextOfOne(chunk: Hit)
    ensures Context([chunk]) == "Context 1:\n" + chunk.text
  {
    assert ContextBlocks([chunk]) == [ContextBlock(1, chunk.text)];
    assert NatToString(1) == "1";
  }

  /**
   * Appending a chunk appends a blank line and its block, numbered after all
   * the earlier ones: blocks come in input order, numbered 1, 2, ...
   */
  lemma ContextAppend(chunks: seq<Hit>, chunk: Hit)
    requires chunks != []
    ensures Context(chunks + [chunk]) == Context(chunks) + "\n\n" + ContextBlock(|chunks| + 1, chunk.text)
  {
    assert ContextBlocks(chunks + [chunk]) == ContextBlocks(chunks) + [ContextBlock(|chunks| + 1, chunk.text)];
    JoinSnoc("\n\n", ContextBlocks(chunks), ContextBlock(|chunks| + 1, chunk.text));
  }

  /** The context of the first i chunks is where the whole context begins. */
  lemma {:induction false} ContextPrefix(chunks: seq<Hit>, i: nat)
    requires 0 < i <= |chunks|
    ensures Context(chunks[..i]) <= Context(chunks)
    decreases |chunks| - i
  {
    if i < |chunks| {
      ContextPrefix(chunks, i + 1);
      assert chunks[..i + 1] == chunks[..i] + [chunks[i]];
      ContextAppend(chunks[..i], chunks[i]);
    } else {
      assert chunks[..i] == chunks;
    }
  }

  /** The number in a block's label is the chunk's 1-based position, written in decimal. */
  lemma BlockLabel(chunks: seq<Hit>, i: nat)
    requires i < |chunks|
    ensures var digits := NatToString(i + 1);
      && ContextBlocks(chunks)[i] == "Context " + digits + ":\n" + chunks[i].text
      && (forall j :: 0 <= j < |digits| ==> IsDigit(digits[j]))
      && ParseDecimal(digits) == i + 1
  {
    NatToStringDecimal(i + 1);
  }

  /**
   * `ask_question`: nothing to answer from when retrieval comes back empty,
   * and then the answer step is skipped; otherwise the answer generated from
   * the retrieved chunks. A failing query embedding propagates.
   */
  method AskQuestion(query: string, topK: int, embedQuery: QueryEmbedder, scan: Option<seq<ScannedRow>>,
                     similarity: Similarity, llm: ChatModel)
    returns (r: Result<Option<string>, Raised>)
    ensures var retrieved := Retrieve(query, topK, embedQuery, scan, similarity);
      && (r.Failure? <==> retrieved.Failure?)
      && (r == Success(None) <==> retrieved == Success([]))
      && (retrieved.Success? && retrieved.value != [] ==>
            r == Success(Some(GenerateAnswer(query, retrieved.value, llm).answer)))
  {
    var relevantChunks := SearchSimilarChunks(query, topK, embedQuery, scan, similarity);
    if relevantChunks.Failure? {
      return Failure(relevantChunks.error);
    }
    if relevantChunks.value == [] {
      return Success(None);
    }
    var reply := GenerateAnswer(query, relevantChunks.value, llm);
    return Success(Some(reply.answer));
  }
}
