# A verified model of a small retrieval-augmented-generation pipeline

The system ingests PDF documents and answers questions about them. On the
ingestion side, the document is loaded, split into chunks and embedded in
batches of two by an external embedding service. The chunks are then stored
with their vectors in the PostgreSQL table `document_chunks`. On the query
side, the question is embedded, every stored chunk is scored against it, and
the `top_k` best are kept. Their texts are numbered into a prompt for a chat
model.

The model covers the sequential routines around those external calls:

- `index_documents.dfy` (module `IndexDocuments`, imperative).
  - `create_embeddings` is a method with a `while` loop that stops (`break`) at the first failing batch.
  - It is proved equal to a specification function, `RunFrom`. The lemmas about `RunFrom` cover:
    - batch shape and coverage;
    - stopping at the first failure, and the partial result being a prefix;
    - alignment of vectors with texts;
    - placement and number of pauses;
    - the displayed batch total.
  - `store_chunks` is a method over a `Database` class with two fields. `committed` holds the rows visible to everyone. `pending` holds the open transaction's inserts.
  - `process_document` is a method with early returns.
- `search_documents.dfy` (module `SearchDocuments`, mixed).
  - `search_similar_chunks` is a method whose loop builds one entry per scanned row. The entries are then sorted and sliced. It is proved equal to the specification function `Retrieve`.
  - Lemmas about `TopK` give the result's length, order, stability and best-first selection.
  - `generate_answer` is a pure function, with lemmas about the exact prompt text.
  - `ask_question` is a method.
- `stable_sort.dfy` (module `StableSort`) is the contract of Python's `list.sort(key=..., reverse=True)`: descending, a permutation, and stable. `SortDesc`, a stable insertion sort, serves as the reference definition.
- `strings.dfy` (module `Strings`) models Python's `str.join` and `str(n)` for `n >= 0`. For `str(n)` it proves that the digits read back as `n`.
- `common.dfy` (module `Common`) holds `Option`, `Result`, `Min`/`Max`, `Flatten`, and Python's `s[:stop]` bound.

External services are oracle parameters:

- Embedding service: `Embedder = (nat, seq<string>) -> Option<seq<Vector>>`. `None` means the call raised. The batch number is passed as well, so a transient failure of one call can be expressed. The real call receives only the texts.
- Query embedding: `string -> Option<Vector>`.
- Similarity: `(Vector, Vector) -> Option<real>`. This is an abstract ordered score; `None` means the computation raised.
- Chat model: `string -> Option<string>`.
- PDF reader: `string -> Option<seq<Page>>`.
- Text splitter: `seq<Page> -> seq<Chunk>`.
- Database scan: `Option<seq<ScannedRow>>`, where `None` means the connection or the SELECT raised.
- Database faults during `store_chunks`: `DbFault`.

The pause between batches is a counter. The model also returns the batches sent to the embedding service, so that "no call" and "calls in this order" can be stated.

Behaviour of the code that the model keeps:

- The query embedding in `search_similar_chunks` is outside the `try` block, so its failure propagates (`Failure(QueryEmbeddingFailed)`). It is not turned into an empty result.
- The code has no guard against zero-length vectors in the cosine similarity. The model leaves the score abstract.
- The store reports `len(chunks)` after the commit even when fewer rows were inserted because embedding stopped early. `StoreChunks` returns exactly that count.

## Model

| member | source | states |
|---|---|---|
| `IndexDocuments.CreateEmbeddings` | index_documents.py:54-84 | The vectors, the batches sent and the pause count are exactly those of the batch-loop specification `RunFrom`. An empty input makes no call and returns `[]`. |
| `IndexDocuments.RunSentBatches` | index_documents.py:60-64 | Call j carries batch j, i.e. `texts[2j : 2j+2]` clamped at the end. Every batch sent starts inside the texts. When no call fails, the batches reach the end of the texts. |
| `IndexDocuments.RunSentContiguous` | index_documents.py:63-64 | The batches sent, laid end to end, are one contiguous slice of the texts starting at the first batch's offset. |
| `IndexDocuments.BatchesCoverTexts` | index_documents.py:57-64 | The batches are disjoint, contiguous and in order. With no failure they concatenate to exactly the input texts. |
| `IndexDocuments.RunStopsAtFirstFailure` | index_documents.py:68-81 | Every call except possibly the last one succeeded. The run failed exactly when the last call raised, so the loop stops at the first failing batch. |
| `IndexDocuments.RunVectorsConcatenate` | index_documents.py:63-70 | The result is the in-order concatenation of the outputs of the calls made. A failing call contributes nothing. |
| `IndexDocuments.RunAligned` | index_documents.py:63-70 | With a one-vector-per-text service, entry j of the result is entry j%2 of the answer to batch j/2. The result has one vector per remaining text when nothing fails, and two per successful batch otherwise. |
| `IndexDocuments.ResultAlignedWithTexts` | index_documents.py:57-84 | With a one-vector-per-text service, the result has exactly n entries, position-aligned with the texts, when no call fails. After a failure it has fewer than n entries, 2 per batch before the failing one. |
| `IndexDocuments.PartialResultIsPrefix` | index_documents.py:68-81 | The result is a prefix of the result against any service that gives the same answers to the calls that succeeded. For example, the partial result is a prefix of the run where the failing call succeeds too. |
| `IndexDocuments.PausesBetweenCalls` | index_documents.py:73-77 | Pauses = calls − 1 (0 when no call), so there is one pause between consecutive calls and none after the last. |
| `IndexDocuments.DisplayedTotalIsCallCount` | index_documents.py:63-66 | When no call fails, the displayed total `(n + 2 - 1) // 2` equals the number of calls. The pause count is then that total minus one (0 for no texts). |
| `IndexDocuments.Pairs` | index_documents.py:91-104 | `zip` gives exactly `min(len(chunks), len(embeddings))` rows. Row j holds chunk j's content, embedding j, the given source file and the label `fixed_size_600_60`. |
| `IndexDocuments.StoredRowsAligned` | index_documents.py:120-126 | With a one-vector-per-text service, stored row j holds chunk j and the vector computed for chunk j's own text. The number of rows equals the number of vectors (≤ number of chunks), and every chunk gets a row when no call failed. |
| `IndexDocuments.Database.Insert` | index_documents.py:99-104 | An insert adds one row to the open transaction and leaves committed rows alone. |
| `IndexDocuments.Database.Commit` | index_documents.py:106 | A commit appends the transaction's rows, in order, to the committed rows. |
| `IndexDocuments.Database.Rollback` | index_documents.py:90 | Closing the connection without a commit discards the transaction's rows. |
| `IndexDocuments.StoreChunks` | index_documents.py:87-110 | One insert per pair, in zip order, then a single commit. The committed table gains exactly the zipped rows if and only if the connection, every insert and the commit succeed; otherwise it is unchanged. After a successful commit the reported count is `len(chunks)`; otherwise nothing is reported. The number of inserts executed is 0 when the connection fails, the index of the failing insert when an insert fails, and the pair count otherwise. |
| `IndexDocuments.Basename` | index_documents.py:126 | On POSIX (`posixpath`), `os.path.basename` is the longest suffix of the path without '/'. |
| `IndexDocuments.LoadPdf` | index_documents.py:29-38 | The pages the reader returns, or `[]` when the reader raised. |
| `IndexDocuments.ProcessDocument` | index_documents.py:113-128 | No pages, or no chunks: return without any embedding call and with the table unchanged. Otherwise the embedding run of the chunks is stored under the file's base name, only if the transaction commits, and the store reports `len(chunks)` exactly then. |
| `Strings.JoinLength` | search_documents.py:93-94 | A join has the total length of its parts plus one separator between each pair of neighbours. |
| `Strings.JoinSplit` | search_documents.py:93-94 | Cutting the parts at i cuts the joined string into the join of the first i parts, one separator, and the join of the rest. |
| `Strings.JoinSnoc` | search_documents.py:93-94 | Appending a part appends one separator and that part. |
| `Strings.NatToStringDecimal` | search_documents.py:93 | `str(n)` is non-empty, all digits, without a leading zero unless n = 0, and reads back as n. |
| `StableSort.SortDescPermutes` | search_documents.py:72 | The sort is a permutation of its input. |
| `StableSort.SortDescSorted` | search_documents.py:72 | The sort orders by non-increasing key. |
| `StableSort.SortDescStable` | search_documents.py:72 | For every key value, the elements with that key keep their original order (stability under `reverse=True`). |
| `SearchDocuments.ScoreAll` | search_documents.py:59-69 | Scoring succeeds if and only if every row's similarity can be computed. Entry i then copies row i's id, content, source file and chunking method into `id`, `text`, `filename`, `split_strategy`, with row i's score. |
| `SearchDocuments.Retrieve` | search_documents.py:44-84 | The result is an exception exactly when the query embedding fails. A failing connection or scan, an empty table, or a row whose similarity raises yields `[]`. |
| `SearchDocuments.SearchSimilarChunks` | search_documents.py:44-84 | The returned value is exactly `Retrieve`: the first `top_k` of the stably sorted scored scan, or the error results above. |
| `SearchDocuments.TopKLength` | search_documents.py:73 | The result has `min(top_k, rows)` entries for `top_k >= 0`, and `max(rows + top_k, 0)` for a negative `top_k`. |
| `SearchDocuments.TopKOrdered` | search_documents.py:72-73 | Returned entries are in non-increasing similarity order. |
| `SearchDocuments.TopKSelectsBest` | search_documents.py:59-73 | Kept and dropped entries together are exactly the scored entries, and no dropped entry has a higher similarity than any kept one. |
| `SearchDocuments.TopKKeepsScanOrder` | search_documents.py:72-73 | For each similarity value, the kept entries with that value are the first ones with that value in scan order, in scan order. |
| `SearchDocuments.GenerateAnswer` | search_documents.py:87-111 | The model is called if and only if there are chunks. With none, the answer is "No relevant information found in the database.". A model failure gives "Error generating answer."; otherwise the answer is the model's reply. |
| `SearchDocuments.PromptSent` | search_documents.py:96-103 | The prompt sent is the instruction line and a blank line, then the context, then "\n\nUser Query: " + query + "\n\nYour Answer:". |
| `SearchDocuments.ContextOfOne` | search_documents.py:93-94 | One chunk gives exactly "Context 1:\n" followed by its text. |
| `SearchDocuments.ContextAppend` | search_documents.py:93-94 | Appending a chunk appends "\n\n" and its block numbered after all earlier ones, so blocks are numbered 1, 2, … in input order. |
| `SearchDocuments.ContextPrefix` | search_documents.py:93-94 | The context of the first i chunks is a prefix of the whole context. |
| `SearchDocuments.BlockLabel` | search_documents.py:93 | Block i is "Context " + str(i+1) + ":\n" + text, and its label is a decimal numeral that reads back as i+1. |
| `SearchDocuments.AskQuestion` | search_documents.py:114-136 | A failing query embedding propagates. An empty retrieval returns None without generating an answer. Otherwise the result is the answer generated from the retrieved chunks. |

## Left out

- `cosine_similarity` (search_documents.py:34-41) is NumPy floating-point arithmetic with no zero-norm guard. The model replaces it with an abstract real score per row. NaN, which would break the ordering, is not modelled.
- `chunk_documents` (index_documents.py:41-51) is the text splitter of an external library, whose algorithm is not part of this model. It is an oracle, and chunk sizes and overlap are not modelled.
- `load_pdf` (index_documents.py:29-38): the PDF library is an oracle, and its page extraction is not modelled. `LoadPdf` models only "pages, or none on an exception".
- The embedding service, the chat model and the PostgreSQL engine are oracles. SQL text, parameter binding, the `id` serial and `created_at` are not modelled.
- `time.sleep(2)` is counted, not timed. `print` output, `input()`, the `__main__` blocks, `.env` loading and the module-level engine and client construction are not modelled, apart from the count that `store_chunks` prints.
- Exceptions that the code does not catch, other than the query embedding's, are not modelled. An example is the splitter raising inside `process_document`; the splitter is assumed total.
- An embedding call may return a different number of vectors than texts. Nothing raises then: the vectors are appended as returned and `zip` pairs rows by position, and `RunFrom` and `Pairs` model exactly that. `RunAligned`, `ResultAlignedWithTexts` and `StoredRowsAligned` assume one vector per text and say nothing about this case.
- Floating-point numbers are modelled as reals. The vectors are Python floats (double precision), but the `embedding` column is `REAL[]` (single precision, database_init.py:14), so the table holds a rounded copy of each vector. `Database.committed` holds the exact `Record.embedding`, and that rounding on insert is not modelled.
- The `top_k=5` default of `search_similar_chunks` and `ask_question` (search_documents.py:44, 114) is not modelled: `SearchSimilarChunks`, `Retrieve` and `AskQuestion` take `topK` as a required argument.
- `ProcessDocument`: a raising embedding service is handled inside `create_embeddings` and modelled. Exceptions from `store_chunks` are caught there and modelled as `DbFault`.
- The administrative scripts (db_cleaner.py, db_inspector.py, database_init.py, check_schema.py, test_db.py) are SQL and console I/O around the database engine. They are not part of this model.
- Basename: only POSIX paths are modelled. On Windows, `os.path` is `ntpath`, which also splits at '\\' and after a drive prefix; those separators and prefixes are not modelled.
- Python's Timsort is not modelled. Only its contract (descending by key, permutation, stable) is proved, about a reference insertion sort.
