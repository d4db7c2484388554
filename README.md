# gpt-pgvector core in Dafny

gpt-pgvector answers questions over a document collection. Its ingest path
reads a file line by line. It normalises each line's whitespace and packs the
lines greedily into chunks that stay under a token budget. Each chunk is
embedded and written to a PostgreSQL/pgvector table, in order, and the run
stops at the first chunk that fails. Its answer path embeds the question and
fetches the nearest rows. It packs those rows into a context under a second
token budget, then sends a fixed four-message chat request: three fixed
preamble messages plus one message that carries the context and the question.

This project models that core:

- `main.py`:
  - `gen_vector_from_file`, the chunker with its abort rules;
  - `gen_context`, the context assembler;
  - the message list of `get_answer`;
  - the text preprocessing in `get_embedding` and `create_embedding`.
- `test_pg.py`: the variants of the same functions in that script.

The tokenizer, the embedding service and the database are parameters.

- `wrappers.dfy`: `Option`.
- `tokens.dfy`: token totals over a tokenizer `tokens: string -> nat` (tiktoken's count).
- `text.dfy`: line normalisation (`str.strip` then `re.sub(r'\s+', ' ', ...)`), newline replacement, NUL stripping, concatenation.
- `services.dfy`: the embedding gateway and the store adapter's write, over an embedding oracle and a connection oracle.
- `chunker.dfy`:
  - the ingest loop as a method, `GenVectorFromFile`;
  - the specification it is proved against:
    - `Pack`, the greedy packing of the normalised lines;
    - `Ingest`, the service calls made over that packing up to the first failure;
    - `Run`, the loop's own step relation, proved equal to `Ingest`.
- `context.dfy`: `gen_context` of `main.py` as a method with a `break`, proved against `Budgeted`, the longest prefix of rows within the budget.
- `prompt.dfy`: the chat request and its user-message template.
- `testpg.dfy`: the `test_pg.py` variants:
  - the content-only context assembler with budget 1500;
  - the store write without NUL stripping;
  - the prompt with a context that is always a string.

Behaviour of the code that the model keeps:

- The chunker flushes the accumulator when the next line does not fit, even when the accumulator's text is empty, and then sends the empty text for embedding. This happens whenever the accumulator holds only lines that normalise to the empty string (nothing yet, a leading blank line, or blank lines right after a flush) and the next line alone reaches the budget.
- After the last line, the leftover accumulator is sent when its token count is positive (`content_size > 0`), not when its text is non-empty. Only the write is checked there; an empty embedding does not stop that last send.
- Lines are concatenated with no separator (`chunk_content += str`). A chunk of `AAA` and `BBB` is `AAABBB`, not `AAA BBB`.
- An id of 0 counts as a failed write (`if not id`).
- With no context, the user message shows the word `None` (`str.format(None)`), not an empty marker.
- `gen_context` in `test_pg.py` returns the empty string for no rows; `main.py` returns `None`.

## Model

| member | source | states |
|---|---|---|
| Text.NormalizeIsNormal | main.py:168 | a normalised line has no whitespace at either end, no two whitespace characters in a row, and no whitespace but the blank |
| Text.NormalizeIdempotent | main.py:168 | normalising a normalised line changes nothing |
| Text.NormalizeIsStripCollapse | main.py:168 | the one-pass normalisation equals `strip()` followed by collapsing each whitespace run to one blank |
| Text.NormalizeKeepsVisible | main.py:168 | the non-whitespace characters of the line survive unchanged and in order |
| Text.StripTrimmed | main.py:168 | `strip()` leaves no whitespace at either end |
| Text.CollapseSpec | main.py:168 | collapsing leaves no whitespace runs and no whitespace but the blank; it is empty iff its input is; visible first and last characters are kept |
| Text.TrimStartSpec | main.py:168 | the leading-whitespace trim removes exactly the longest whitespace prefix |
| Text.TrimEndSpec | main.py:168 | the trailing-whitespace trim removes exactly the longest whitespace suffix |
| Text.ReplaceNewlinesSpec | main.py:80 | the text sent for embedding keeps the length, has each newline replaced by one blank, keeps every other character, and contains no newline |
| Text.ReplaceNewlinesIdempotent | test_pg.py:66 | replacing newlines twice is replacing them once |
| Text.RemoveNulSpec | main.py:98 | the stored content has no NUL, has every other character as often as the input, and equals a NUL-free input |
| Text.RemoveNulAppend | main.py:98 | NUL stripping distributes over concatenation, so the order of the other characters is kept |
| Text.ConcatAppend | main.py:173 | joining lines without separator is compatible with splitting the list anywhere |
| Tokens.SumTokensAppend | main.py:170 | token totals add up over any split of the lines |
| Services.GetEmbeddingIgnoresNewlines | main.py:78-86 | texts that differ only in newline versus blank yield the same embedding |
| Services.InsertRequestSpec | main.py:92-98 | an insert is issued iff there is a connection; its content has no NUL and otherwise the same characters; URL and embedding are unchanged |
| Services.CreateEmbeddingNoDb | main.py:93-94 | without a connection the result is `None` and nothing counts as stored |
| Chunker.NormalizeAll | main.py:167-168 | every line is replaced by its normalisation, one for one |
| Chunker.PackIsGreedy | main.py:171-189 | the packing is greedy: every chunk is a single line or strictly below the budget, and each flush was forced by a line that would have reached the budget |
| Chunker.GreedyPackingIsPack | main.py:171-189 | any greedy grouping that partitions the lines is the one the loop computes, so the greedy description determines the packing |
| Chunker.PackPartitions | main.py:171-189 | the flushed groups followed by the open accumulator are the normalised lines, in order, none dropped or repeated |
| Chunker.ChunksCover | main.py:173 | the flushed chunks' texts followed by the leftover accumulator spell out all normalised lines, in order, with no separator |
| Chunker.GreedyOpenNonEmpty | main.py:188-189 | once a chunk was flushed the accumulator holds at least the line that caused the flush |
| Chunker.PackFlushedPrefix | main.py:176-189 | a chunk flushed after some lines stays flushed, at the same position, after all lines |
| Chunker.ChunksSpec | main.py:173 | chunk `i` is the lines of group `i` joined without separator |
| Chunker.TotalSplits | main.py:169-170 | the token total of all lines is the flushed groups' tokens plus the leftover's |
| Chunker.FirstFailure | main.py:176-187 | the index of the first chunk that fails: all before it went through, and it did not |
| Chunker.RunFromStartIsIngest | main.py:162-199 | the loop's step-by-step run from its initial state equals the run described on the packing of the whole file |
| Chunker.IngestCompleted | main.py:162-200 | a run completes iff every flushed chunk went through and the leftover has no tokens or was written; then the reported total is the token sum of all lines, the call count is the number of chunks sent, and exactly the flushed chunks plus a non-zero leftover were sent and written |
| Chunker.IngestStopsAtFailure | main.py:176-199 | a run that does not complete stops at the first failing chunk: all earlier chunks went through, nothing later is sent or written, an empty embedding stops it before the write and only for a flushed chunk, and the leftover stops it only when it has tokens |
| Chunker.ProcessStops | main.py:176-199 | the same stop rule for any list of flushed chunks and any leftover |
| Chunker.IngestSendsPrefix | main.py:176-199 | what is written is a prefix of what is sent, which is a prefix of the flushed chunks and the leftover; a leftover without tokens is never sent |
| Chunker.ProcessSendsPrefix | main.py:176-199 | the same prefix rule for any list of flushed chunks and any leftover |
| Chunker.NoDbNeverStores | main.py:93-94 | without a connection no chunk goes through |
| Chunker.IngestWithoutDb | main.py:176-199 | without a connection at most one chunk is sent, and the run completes iff nothing was flushed and the leftover has no tokens |
| Chunker.SendChunk | main.py:178-187 | a flush embeds the chunk, stops on an empty embedding, and stops when the write yields no usable id |
| Chunker.SendRemainder | main.py:191-200 | the leftover is sent only when its token count is positive, only its write is checked, and the totals are reported on success |
| Chunker.GenVectorFromFile | main.py:162-200 | the loop over the file's lines performs exactly the run `Ingest` describes on the normalised lines, so the properties above hold of it |
| Chunker.GenVectorFromFileDefault | main.py:162 | without a chunk size the budget is 2000 tokens |
| Context.ContentTokensIsSumTokens | main.py:139 | the running count is the tokenizer's total over the rows' contents, URLs excluded |
| Context.ContentTokensMonotone | main.py:139 | the running content token count never decreases |
| Context.BudgetedSpec | main.py:137-141 | the rows kept fit the budget, and every longer prefix exceeds it |
| Context.BudgetedIgnoresUrls | main.py:139-141 | the number of rows kept depends on the contents alone, not on the URLs |
| Context.RenderRowShape | main.py:142-145 | a rendered row starts with its content and ends with the separator; the `SOURCE:` line appears iff the URL is non-empty |
| Context.RenderAppend | main.py:143-145 | rendering rows one after the other is compatible with splitting them anywhere |
| Context.GenContext | main.py:132-146 | `None` for a missing or empty result; otherwise the rendering of the longest prefix of rows within the budget, in order |
| Context.GenContextDefault | main.py:132 | without a budget the limit is 3000 content tokens |
| Prompt.OnlyLastVaries | main.py:151-156 | every request has four messages with roles system, user, assistant, user, and only the last depends on the context and the question |
| Prompt.QuestionRoundTrip | main.py:155 | the question can be read back intact from the user message built with it |
| Prompt.QuestionOfSound | main.py:155 | a message from which a question is read back is the message built from that question |
| Prompt.QuestionInjective | main.py:151-156 | distinct questions in the same context give distinct requests |
| Prompt.MissingContextReadsNone | main.py:155 | a missing context is shown as the word `None` |
| TestPg.GenContext | test_pg.py:116-124 | the contents of the longest prefix of rows within the budget, each followed by the separator; the empty string for no rows |
| TestPg.GenContextDefault | test_pg.py:116 | without a budget the limit is 1500 content tokens |
| TestPg.RenderContentsWithoutUrls | test_pg.py:123 | on rows without URLs the content-only rendering equals that of `main.py` |
| TestPg.RenderContentsIgnoresUrls | test_pg.py:119-123 | the content-only rendering does not depend on the URLs |
| TestPg.ContextVariantsAgree | test_pg.py:116-124 | on rows without URLs both assemblers keep the same rows and render them the same |
| TestPg.InsertRequestVerbatimSpec | test_pg.py:78-83 | an insert is issued iff there is a connection, with the content unchanged; it equals the `main.py` insert iff there is no connection or the content has no NUL |
| TestPg.CreateEmbeddingVerbatimSpec | test_pg.py:73-92 | without a connection the result is `None`; with one it is the store's answer to the verbatim insert; on NUL-free content it agrees with `main.py` |
| TestPg.TestPromptShape | test_pg.py:127-132 | four messages with roles system, user, assistant, user; the last carries the context text and the question |

## Left out

- The embedding and chat services (main.py:81, main.py:159, test_pg.py:67, test_pg.py:134) are oracles. The embedding oracle gives `None` for a falsy response. The chat answer is not modelled.
- The tokenizer (main.py:61-65, tiktoken `cl100k_base`) is the parameter `tokens: string -> nat`.
- The psycopg2 connection, cursor, commit and SQL text are left out. A connection is an oracle from an insert to an optional id. `None` stands for an exception raised before the id is fetched (main.py:96-100), which is printed and swallowed. An exception in the commit or the close (main.py:102-104) is swallowed too, but the id already fetched is returned, so the oracle answers `Some(id)` and the chunk counts as written.
- Exceptions that escape the embedding call are left out. `get_embedding` (main.py:78-86) has no `try`. Once the retry decorator gives up, an error from the service or from reading its response leaves `gen_vector_from_file` with no totals and no message, and the leftover chunk is not written. `Outcome` has no case for this; the embedding oracle's `None` stands only for a falsy response.
- The tokenizer can raise: tiktoken's `encode` with its defaults refuses text holding a special-token string such as `<|endoftext|>`. The model's `tokens` is total, so a run that ends with that exception at main.py:169 (flushed chunks stay written, the accumulator is lost, no totals are printed) is not represented, and neither is a `gen_context` that raises at main.py:139 or test_pg.py:120.
- The services are stateless in the model. The embedding oracle, `Connection.run` and `Backend.flush` are functions of the request, so two sends of the same text end the same way within one run. The same text can be flushed twice in one run, for example the empty text with blank lines. A store whose answer depends on earlier writes, such as one that fails a second write of the same text, is not represented.
- `search_embedding` (main.py:109-130, test_pg.py:94-114) is left out: it is an SQL query. Its rows are the input of the context assemblers. Their leading id (main.py) and score columns are not represented.
- `connect` (main.py:67-74, test_pg.py:56-63) and the retry and rate-limit decorators (main.py:76-77, main.py:148-149) are left out; they are about I/O and timing.
- The `answer` orchestration (main.py:202-207), signal handling, the command line and the REPL (main.py:209-240) are left out. So is the script body of test_pg.py:137-161.
- A NULL URL or content in a search row is not represented: `Row` holds two strings. `main.py` renders a NULL URL as `SOURCE: None` (main.py:142-143, since `None != ""`), and a NULL content makes the tokenizer raise (main.py:139, test_pg.py:120), which leaves `gen_context` and `answer` with an uncaught exception.
- Opening the file (main.py:167): the file is its sequence of lines.
- Embedding vectors are sequences of reals. Only their emptiness is inspected.
- The wording of the system prompt, the example question and the example answer is left out. `Prompt.Preamble` holds them as three strings.
- Chunker.GenVectorFromFile: the messages it prints are not modelled. The totals appear only in the `Completed` outcome. The chunks sent and passed on are ghost outputs. `Trace.inserted` lists the chunks passed to `create_embedding`, including those it returns on at once for lack of a connection.
- Chunker.GenVectorFromFile: Python's `re` module is taken to treat as whitespace exactly the characters `str.isspace` accepts (`Text.IsSpace`). Unicode is not normalised.
- TestPg.CreateEmbeddingVerbatimSpec: the SQL text that `test_pg.py` prints before each insert is not modelled.
