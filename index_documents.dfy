/**
 * The ingestion side of the pipeline: the chunks of a document are sent to the
 * embedding service two at a time, with a pause between calls, and the chunks
 * are then written to the `document_chunks` table, paired position by position
 * with the vectors that came back, in one transaction.
 *
 * The embedding service, the PDF reader and the text splitter are external and
 * appear as oracle parameters. The pause is counted, not timed.
 */
module IndexDocuments {
  import opened Common

  /** A piece of a document as produced by the text splitter. */
  datatype Chunk = Chunk(pageContent: string)

  /** A page of text as produced by the PDF reader. */
  datatype Page = Page(pageContent: string)

  /** The parameters of one INSERT into `document_chunks` (`id` and `created_at` are set by the database). */
  datatype Record = Record(chunkContent: string, embedding: Vector, sourceFile: string, chunkingMethod: string)

  /** `batch_size` in `create_embeddings`; the specifications below write it as the literal 2. */
  const BatchSize: nat := 2
  const ChunkingMethod: string := "fixed_size_600_60"

  /**
   * The embedding service. It is asked with the batch number (the call's place
   * in the run, so that a transient failure can be expressed) and the batch's
   * texts; `None` means the call raised.
   */
  type Embedder = (nat, seq<string>) -> Option<seq<Vector>>

  /** A service that, whenever it answers, answers with one vector per text. */
  ghost predicate OneVectorPerText(embed: Embedder)
  {
    forall k, batch :: embed(k, batch).Some? ==> |embed(k, batch).value| == |batch|
  }

  /** The texts sent for embedding: each chunk's page content, in order. */
  function Texts(chunks: seq<Chunk>): seq<string>
  {
    seq(|chunks|, i requires 0 <= i < |chunks| => chunks[i].pageContent)
  }

  /** Batch number k: the slice `texts[2k : 2k + 2]`, clamped at the end as Python slices are. */
  function Batch(texts: seq<string>, k: nat): seq<string>
    requires 2 * k < |texts|
  {
    texts[2 * k .. Min(2 * k + 2, |texts|)]
  }

  /** What a call contributes to the result: its vectors, or nothing when it raised. */
  function Answer(embed: Embedder, k: nat, batch: seq<string>): seq<Vector>
  {
    match embed(k, batch)
    case Some(vectors) => vectors
    case None => []
  }

  /** The outputs of the calls `k, k + 1, ...` made with the given batches, concatenated in order. */
  function Answers(embed: Embedder, k: nat, batches: seq<seq<string>>): seq<Vector>
    decreases |batches|
  {
    if batches == [] then [] else Answer(embed, k, batches[0]) + Answers(embed, k + 1, batches[1..])
  }

  /**
   * The observable effect of the batch loop from batch k on: the vectors
   * collected, the batches handed to the service (in call order), the number
   * of pauses, and whether the loop stopped on a failing call.
   */
  datatype Run = Run(vectors: seq<Vector>, sent: seq<seq<string>>, delays: nat, failed: bool)

  /** Specification of the batch loop, one iteration per batch number. */
  function RunFrom(texts: seq<string>, embed: Embedder, k: nat): Run
    decreases |texts| - 2 * k
  {
    if 2 * k >= |texts| then Run([], [], 0, false)
    else
      var batch := Batch(texts, k);
      match embed(k, batch)
      case None => Run([], [batch], 0, true)
      case Some(vectors) =>
        var rest := RunFrom(texts, embed, k + 1);
        var pause := if 2 * k + 2 < |texts| then 1 else 0;
        Run(vectors + rest.vectors, [batch] + rest.sent, pause + rest.delays, rest.failed)
  }

  /**
   * `create_embeddings`: walks the texts in slices of two, extends the result
   * with each batch's vectors, pauses between batches, and stops at the first
   * call that raises, keeping what was collected so far. Besides the vectors it
   * reports the batches handed to the service and the number of pauses.
   */
  method CreateEmbeddings(chunks: seq<Chunk>, embed: Embedder)
    returns (allEmbeddings: seq<Vector>, sent: seq<seq<string>>, delays: nat)
    ensures var run := RunFrom(Texts(chunks), embed, 0);
      allEmbeddings == run.vectors && sent == run.sent && delays == run.delays
    ensures chunks == [] ==> allEmbeddings == [] && sent == [] && delays == 0
  {
    var texts := Texts(chunks);
    ghost var run := RunFrom(texts, embed, 0);
    allEmbeddings, sent, delays := [], [], 0;
    var i := 0;
    ghost var k := 0;
    while i < |texts|
      invariant i == 2 * k
      invariant var rest := RunFrom(texts, embed, k);
        && run.vectors == allEmbeddings + rest.vectors
        && run.sent == sent + rest.sent
        && run.delays == delays + rest.delays
    {
      ghost var rest := RunFrom(texts, embed, k);
      var batch := texts[i .. Min(i + BatchSize, |texts|)];
      assert batch == Batch(texts, k) && i / 2 == k;
      sent := sent + [batch];
      var response := embed(i / 2, batch);
      if response.None? {
        assert rest.sent == [batch];
        break;
      }
      ghost var next := RunFrom(texts, embed, k + 1);
      assert rest.vectors == response.value + next.vectors;
      assert rest.sent == [batch] + next.sent;
      allEmbeddings := allEmbeddings + response.value;
      if i + BatchSize < |texts| {
        delays := delays + 1;
      }
      i := i + BatchSize;
      k := k + 1;
    }
  }

  /**
   * The batches go out in order, the j-th call after batch k carrying batch
   * k + j, i.e. `texts[2(k+j) : 2(k+j) + 2]`; when no call fails they reach
   * the end of the texts.
   */
  lemma {:induction false} RunSentBatches(texts: seq<string>, embed: Embedder, k: nat)
    ensures var run := RunFrom(texts, embed, k);
      && (run.sent != [] ==> 2 * (k + |run.sent| - 1) < |texts|)
      && (forall j :: 0 <= j < |run.sent| ==> run.sent[j] == Batch(texts, k + j))
      && (!run.failed ==> 2 * (k + |run.sent|) >= |texts|)
    decreases |texts| - 2 * k
  {
    var run := RunFrom(texts, embed, k);
    if 2 * k < |texts| {
      var batch := Batch(texts, k);
      if embed(k, batch).Some? {
        var rest := RunFrom(texts, embed, k + 1);
        RunSentBatches(texts, embed, k + 1);
        assert run.sent == [batch] + rest.sent;
        forall j | 0 <= j < |run.sent|
          ensures run.sent[j] == Batch(texts, k + j)
        {
          if j > 0 {
            assert run.sent[j] == rest.sent[j - 1];
            assert k + j == (k + 1) + (j - 1);
          } else {
            assert run.sent[j] == batch && k + j == k;
          }
        }
        assert k + |run.sent| == (k + 1) + |rest.sent|;
      } else {
        assert run.sent == [batch] && batch == Batch(texts, k + 0);
      }
    }
  }

  /** The batches sent from batch k on, laid end to end, are a contiguous slice of the texts. */
  lemma {:induction false} RunSentContiguous(texts: seq<string>, embed: Embedder, k: nat)
    ensures var run := RunFrom(texts, embed, k);
      Flatten(run.sent) == texts[Min(2 * k, |texts|) .. Min(2 * (k + |run.sent|), |texts|)]
    decreases |texts| - 2 * k
  {
    var run := RunFrom(texts, embed, k);
    if 2 * k < |texts| {
      var batch := Batch(texts, k);
      var lo := 2 * k;
      var mid := Min(2 * (k + 1), |texts|);
      assert batch == texts[lo..mid];
      if embed(k, batch).Some? {
        var rest := RunFrom(texts, embed, k + 1);
        RunSentContiguous(texts, embed, k + 1);
        assert run.sent == [batch] + rest.sent;
        assert run.sent[1..] == rest.sent;
        var hi := Min(2 * (k + |run.sent|), |texts|);
        assert Flatten(run.sent) == batch + Flatten(rest.sent);
        if rest.sent == [] {
          assert hi == mid;
        } else {
          assert mid == 2 * (k + 1);
          assert Flatten(rest.sent) == texts[mid..hi];
        }
        assert texts[lo..hi] == texts[lo..mid] + texts[mid..hi];
      } else {
        assert run.sent == [batch];
        assert Flatten(run.sent) == batch + Flatten([]);
      }
    }
  }

  /** With no failure, the batches handed to the service are exactly the texts, cut in order. */
  lemma BatchesCoverTexts(texts: seq<string>, embed: Embedder)
    ensures var run := RunFrom(texts, embed, 0);
      && Flatten(run.sent) == texts[..Min(2 * |run.sent|, |texts|)]
      && (!run.failed ==> Flatten(run.sent) == texts)
  {
    RunSentBatches(texts, embed, 0);
    RunSentContiguous(texts, embed, 0);
  }

  /**
   * The loop stops at the first call that raises: every call before the last
   * one succeeded, and the last one raised exactly when the run failed.
   */
  lemma {:induction false} RunStopsAtFirstFailure(texts: seq<string>, embed: Embedder, k: nat)
    ensures var run := RunFrom(texts, embed, k);
      && (run.failed ==> run.sent != [] && embed(k + |run.sent| - 1, run.sent[|run.sent| - 1]).None?)
      && (forall j :: 0 <= j < |run.sent| && (j < |run.sent| - 1 || !run.failed) ==>
            embed(k + j, run.sent[j]).Some?)
    decreases |texts| - 2 * k
  {
    var run := RunFrom(texts, embed, k);
    if 2 * k < |texts| {
      var batch := Batch(texts, k);
      if embed(k, batch).Some? {
        var rest := RunFrom(texts, embed, k + 1);
        RunStopsAtFirstFailure(texts, embed, k + 1);
        assert run.sent == [batch] + rest.sent;
        forall j | 0 <= j < |run.sent| && (j < |run.sent| - 1 || !run.failed)
          ensures embed(k + j, run.sent[j]).Some?
        {
          if j > 0 {
            assert run.sent[j] == rest.sent[j - 1];
            assert k + j == (k + 1) + (j - 1);
          }
        }
        if run.failed {
          assert run.sent[|run.sent| - 1] == rest.sent[|rest.sent| - 1];
        }
      }
    }
  }

  /**
   * The result is the in-order concatenation of the outputs of the calls that
   * were made, the failing call (if any) contributing nothing.
   */
  lemma {:induction false} RunVectorsConcatenate(texts: seq<string>, embed: Embedder, k: nat)
    ensures var run := RunFrom(texts, embed, k);
      run.vectors == Answers(embed, k, run.sent)
    decreases |texts| - 2 * k
  {
    var run := RunFrom(texts, embed, k);
    if 2 * k < |texts| {
      var batch := Batch(texts, k);
      if embed(k, batch).Some? {
        var rest := RunFrom(texts, embed, k + 1);
        RunVectorsConcatenate(texts, embed, k + 1);
        assert run.sent == [batch] + rest.sent;
        assert run.sent[1..] == rest.sent;
      } else {
        assert run.sent[1..] == [];
      }
    }
  }

  /**
   * With a service that answers one vector per text, the result is aligned
   * with the texts: entry j is the vector for text j, i.e. entry j % 2 of the
   * answer to batch j / 2. It covers all texts after batch k when no call
   * fails, and exactly the successful batches, two texts each, otherwise.
   */
  lemma {:induction false} RunAligned(texts: seq<string>, embed: Embedder, k: nat)
    requires OneVectorPerText(embed)
    requires 2 * k <= |texts|
    ensures var run := RunFrom(texts, embed, k);
      && |run.vectors| == (if run.failed then 2 * (|run.sent| - 1) else |texts| - 2 * k)
      && (forall j :: 0 <= j < |run.vectors| ==>
            && 2 * (k + j / 2) < |texts|
            && var answer := embed(k + j / 2, Batch(texts, k + j / 2));
               answer.Some? && j % 2 < |answer.value| && run.vectors[j] == answer.value[j % 2])
    decreases |texts| - 2 * k
  {
    var run := RunFrom(texts, embed, k);
    if 2 * k < |texts| {
      var batch := Batch(texts, k);
      if embed(k, batch).Some? {
        var vs := embed(k, batch).value;
        assert |vs| == |batch|;
        var rest := RunFrom(texts, embed, k + 1);
        if 2 * (k + 1) <= |texts| {
          RunAligned(texts, embed, k + 1);
        } else {
          assert rest.vectors == [] && rest.sent == [];
        }
        assert rest.vectors != [] ==> |batch| == 2;
        forall j | 0 <= j < |run.vectors|
          ensures && 2 * (k + j / 2) < |texts|
                  && var answer := embed(k + j / 2, Batch(texts, k + j / 2));
                     answer.Some? && j % 2 < |answer.value| && run.vectors[j] == answer.value[j % 2]
        {
          if j >= |vs| {
            var j' := j - 2;
            assert run.vectors[j] == rest.vectors[j'];
            assert k + j / 2 == (k + 1) + j' / 2;
            assert j % 2 == j' % 2;
          }
        }
      }
    }
  }

  /**
   * What `create_embeddings` returns for the texts of a document: with a
   * one-vector-per-text service, exactly one vector per text, position by
   * position, when no call fails; otherwise fewer vectors than texts, all
   * from the batches before the failing one.
   */
  lemma ResultAlignedWithTexts(texts: seq<string>, embed: Embedder)
    requires OneVectorPerText(embed)
    ensures var run := RunFrom(texts, embed, 0);
      && (!run.failed ==> |run.vectors| == |texts|)
      && (run.failed ==> |run.vectors| == 2 * (|run.sent| - 1) < |texts|)
      && (forall j :: 0 <= j < |run.vectors| ==>
            && 2 * (j / 2) < |texts|
            && var answer := embed(j / 2, Batch(texts, j / 2));
               answer.Some? && j % 2 < |answer.value| && run.vectors[j] == answer.value[j % 2])
  {
    RunAligned(texts, embed, 0);
    RunSentBatches(texts, embed, 0);
  }

  /**
   * Stopping early yields a prefix: against any service that gives the same
   * answers to the calls that succeeded, the run collects at least the same
   * vectors, in the same order. In particular the partial result of a failed
   * run is a prefix of the run in which the failing call succeeds too.
   */
  lemma {:induction false} PartialResultIsPrefix(texts: seq<string>, embed: Embedder, other: Embedder, k: nat)
    requires var sent := RunFrom(texts, embed, k).sent;
      forall j :: 0 <= j < |sent| && embed(k + j, sent[j]).Some? ==> other(k + j, sent[j]) == embed(k + j, sent[j])
    ensures RunFrom(texts, embed, k).vectors <= RunFrom(texts, other, k).vectors
    decreases |texts| - 2 * k
  {
    var run := RunFrom(texts, embed, k);
    if 2 * k < |texts| {
      var batch := Batch(texts, k);
      if embed(k, batch).Some? {
        assert run.sent[0] == batch;
        assert other(k, batch) == embed(k, batch);
        var rest := RunFrom(texts, embed, k + 1);
        assert run.sent == [batch] + rest.sent;
        forall j | 0 <= j < |rest.sent| && embed(k + 1 + j, rest.sent[j]).Some?
          ensures other(k + 1 + j, rest.sent[j]) == embed(k + 1 + j, rest.sent[j])
        {
          assert rest.sent[j] == run.sent[j + 1];
          assert k + 1 + j == k + (j + 1);
        }
        PartialResultIsPrefix(texts, embed, other, k + 1);
      }
    }
  }

  /**
   * Exactly one pause between two consecutive calls and none after the last
   * one: a pause follows a batch that succeeded and is not the final batch.
   */
  lemma {:induction false} PausesBetweenCalls(texts: seq<string>, embed: Embedder, k: nat)
    ensures var run := RunFrom(texts, embed, k);
      run.delays == (if run.sent == [] then 0 else |run.sent| - 1)
    decreases |texts| - 2 * k
  {
    if 2 * k < |texts| {
      var batch := Batch(texts, k);
      if embed(k, batch).Some? {
        PausesBetweenCalls(texts, embed, k + 1);
      }
    }
  }

  /**
   * The batch total displayed by `create_embeddings`, (n + 2 - 1) // 2, is the
   * number of calls the loop makes when none fails; the number of pauses is
   * then one less (none for no texts).
   */
  lemma {:induction false} DisplayedTotalIsCallCount(texts: seq<string>, embed: Embedder, k: nat)
    requires 2 * k <= |texts|
    ensures var run := RunFrom(texts, embed, k);
      !run.failed ==>
        && |run.sent| == (|texts| - 2 * k + 2 - 1) / 2
        && run.delays == Max(|run.sent| - 1, 0)
    decreases |texts| - 2 * k
  {
    PausesBetweenCalls(texts, embed, k);
    if 2 * k < |texts| {
      var batch := Batch(texts, k);
      if embed(k, batch).Some? {
        if 2 * (k + 1) <= |texts| {
          DisplayedTotalIsCallCount(texts, embed, k + 1);
        }
      }
    }
  }

  /** Python's `zip` of chunks and vectors into the rows `store_chunks` inserts. */
  function Pairs(chunks: seq<Chunk>, embeddings: seq<Vector>, sourceFile: string): (rows: seq<Record>)
    ensures |rows| == Min(|chunks|, |embeddings|)
    ensures forall j :: 0 <= j < |rows| ==>
      rows[j] == Record(chunks[j].pageContent, embeddings[j], sourceFile, ChunkingMethod)
  {
    if chunks == [] || embeddings == [] then []
    else [Record(chunks[0].pageContent, embeddings[0], sourceFile, ChunkingMethod)]
         + Pairs(chunks[1..], embeddings[1..], sourceFile)
  }

  /**
   * What ingestion stores when the transaction commits, with a service that
   * answers one vector per text: one row per embedded chunk, in order, each
   * row's vector being the one the service computed for that very chunk's
   * text; every chunk gets its row when no embedding call failed.
   */
  lemma StoredRowsAligned(chunks: seq<Chunk>, embed: Embedder, sourceFile: string)
    requires OneVectorPerText(embed)
    ensures var texts := Texts(chunks);
      var run := RunFrom(texts, embed, 0);
      var rows := Pairs(chunks, run.vectors, sourceFile);
      && |rows| == |run.vectors| <= |chunks|
      && (!run.failed ==> |rows| == |chunks|)
      && (forall j :: 0 <= j < |rows| ==>
            && rows[j].chunkContent == chunks[j].pageContent
            && rows[j].sourceFile == sourceFile
            && rows[j].chunkingMethod == ChunkingMethod
            && 2 * (j / 2) < |texts|
            && Batch(texts, j / 2)[j % 2] == chunks[j].pageContent
            && embed(j / 2, Batch(texts, j / 2)).Some?
            && rows[j].embedding == embed(j / 2, Batch(texts, j / 2)).value[j % 2])
  {
    var texts := Texts(chunks);
    var run := RunFrom(texts, embed, 0);
    ResultAlignedWithTexts(texts, embed);
    forall j | 0 <= j < |run.vectors|
      ensures 2 * (j / 2) < |texts| && Batch(texts, j / 2)[j % 2] == chunks[j].pageContent
    {
      assert 2 * (j / 2) + j % 2 == j;
    }
  }

  /** Where the database raises during `store_chunks`, if it does. */
  datatype DbFault = NoFault | ConnectFails | InsertFails(index: nat) | CommitFails

  /** The stored rows change only when the transaction reaches its commit. */
  predicate Commits(fault: DbFault, inserts: nat)
  {
    fault == NoFault || (fault.InsertFails? && fault.index >= inserts)
  }

  /**
   * The `document_chunks` table: rows committed so far, and rows inserted by
   * the open transaction that a commit would make permanent.
   */
  class Database {
    var committed: seq<Record>
    var pending: seq<Record>

    constructor (rows: seq<Record>)
      ensures committed == rows && pending == []
    {
      committed := rows;
      pending := [];
    }

    method Insert(r: Record)
      modifies this
      ensures committed == old(committed) && pending == old(pending) + [r]
    {
      pending := pending + [r];
    }

    method Commit()
      modifies this
      ensures committed == old(committed) + old(pending) && pending == []
    {
      committed := committed + pending;
      pending := [];
    }

    /** What closing a connection with an uncommitted transaction does. */
    method Rollback()
      modifies this
      ensures committed == old(committed) && pending == []
    {
      pending := [];
    }
  }

  /**
   * `store_chunks`: one insert per (chunk, vector) pair, in order, then a
   * single commit. A failure anywhere skips the commit and the connection's
   * close rolls the inserts back. `reported` is the count printed after the
   * commit (always the number of chunks); `executed` counts the inserts run.
   */
  method StoreChunks(db: Database, chunks: seq<Chunk>, embeddingsList: seq<Vector>, sourceFile: string, fault: DbFault)
    returns (reported: Option<nat>, executed: nat)
    requires db.pending == []
    modifies db
    ensures db.pending == []
    ensures reported.Some? <==> Commits(fault, Min(|chunks|, |embeddingsList|))
    ensures reported.Some? ==> reported.value == |chunks|
    ensures db.committed == old(db.committed) + (if reported.Some? then Pairs(chunks, embeddingsList, sourceFile) else [])
    ensures executed == match fault
      case ConnectFails => 0
      case InsertFails(index) => Min(index, Min(|chunks|, |embeddingsList|))
      case _ => Min(|chunks|, |embeddingsList|)
  {
    reported, executed := None, 0;
    if fault == ConnectFails {
      return;
    }
    var rows := Pairs(chunks, embeddingsList, sourceFile);
    var i := 0;
    while i < Min(|chunks|, |embeddingsList|)
      invariant i <= |rows|
      invariant executed == i
      invariant db.committed == old(db.committed)
      invariant db.pending == rows[..i]
      invariant fault.InsertFails? ==> fault.index >= i
    {
      if fault == InsertFails(i) {
        db.Rollback();
        return;
      }
      db.Insert(Record(chunks[i].pageContent, embeddingsList[i], sourceFile, ChunkingMethod));
      assert rows[..i + 1] == rows[..i] + [rows[i]];
      executed := executed + 1;
      i := i + 1;
    }
    if fault == CommitFails {
      db.Rollback();
      return;
    }
    assert rows[..i] == rows;
    db.Commit();
    reported := Some(|chunks|);
  }

  /** `os.path.basename` on a POSIX path: the longest suffix without a '/'. */
  function Basename(path: string): (name: string)
    ensures '/' !in name
    ensures |name| <= |path| && path[|path| - |name|..] == name
    ensures |name| < |path| ==> path[|path| - |name| - 1] == '/'
  {
    if path == [] || path[|path| - 1] == '/' then []
    else Basename(path[..|path| - 1]) + [path[|path| - 1]]
  }

  /** The PDF reader; `None` means loading raised. */
  type PdfReader = string -> Option<seq<Page>>

  /** The text splitter (its algorithm is not modelled). */
  type Splitter = seq<Page> -> seq<Chunk>

  /** `load_pdf`: the pages read, or none when the reader raised. */
  function LoadPdf(filePath: string, reader: PdfReader): (pages: seq<Page>)
    ensures reader(filePath).None? ==> pages == []
    ensures reader(filePath).Some? ==> pages == reader(filePath).value
  {
    match reader(filePath)
    case Some(pages) => pages
    case None => []
  }

  datatype Outcome = NoPages | NoChunks | Processed(chunkCount: nat, embedded: nat, reported: Option<nat>)

  /**
   * `process_document`: load, split, embed, store; it returns early, without
   * calling the embedding service or touching the table, when loading yields
   * no pages or splitting yields no chunks.
   */
  method ProcessDocument(db: Database, filePath: string, reader: PdfReader, splitter: Splitter, embed: Embedder, fault: DbFault)
    returns (outcome: Outcome, sent: seq<seq<string>>)
    requires db.pending == []
    modifies db
    ensures db.pending == []
    ensures LoadPdf(filePath, reader) == [] ==>
      outcome == NoPages && sent == [] && db.committed == old(db.committed)
    ensures var pages := LoadPdf(filePath, reader);
      pages != [] && splitter(pages) == [] ==>
        outcome == NoChunks && sent == [] && db.committed == old(db.committed)
    ensures var pages := LoadPdf(filePath, reader);
      var chunks := splitter(pages);
      var run := RunFrom(Texts(chunks), embed, 0);
      pages != [] && chunks != [] ==>
        && sent == run.sent
        && outcome.Processed? && outcome.chunkCount == |chunks| && outcome.embedded == |run.vectors|
        && outcome.reported == (if Commits(fault, Min(|chunks|, |run.vectors|)) then Some(|chunks|) else None)
        && db.committed == old(db.committed)
             + (if Commits(fault, Min(|chunks|, |run.vectors|)) then Pairs(chunks, run.vectors, Basename(filePath)) else [])
  {
    var documents := LoadPdf(filePath, reader);
    if documents == [] {
      return NoPages, [];
    }
    var chunks := splitter(documents);
    if chunks == [] {
      return NoChunks, [];
    }
    var embeddingsList, delays;
    embeddingsList, sent, delays := CreateEmbeddings(chunks, embed);
    var reported, executed := StoreChunks(db, chunks, embeddingsList, Basename(filePath), fault);
    outcome := Processed(|chunks|, |embeddingsList|, reported);
  }
}
